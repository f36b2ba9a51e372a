/**
 * What the message route guarantees, proved about the specification in
 * module Flow: one lemma per routing rule, the effect of each handler on the
 * dictionaries and the call log, the facts every message keeps, and facts
 * about whole runs of messages.
 */
module FlowProperties {
  import opened Wrappers
  import opened Strings
  import opened Script
  import opened Wording
  import opened Flow

  predicate Finished(s: Store, user: string) {
    user in s.states && s.states[user] == Finish
  }

  /** A message that is none of the commands: no '?', not "start report", not a live "solved". */
  predicate Ordinary(s: Store, msg: string, user: string) {
    && !Asks(msg)
    && !LowerIs(msg, "start report")
    && (LowerIs(msg, "solved") ==> user !in s.pending)
  }

  // ---------------------------------------------------------------------
  // Routing, rule by rule.
  // ---------------------------------------------------------------------

  /** Once finished, every message goes to the assistant. */
  lemma FinishedTalksToAssistant(t: Texts, s: Store, msg: string, user: string, reply: OracleResult, status: int)
    requires Complete(t) && Finished(s, user)
    ensures HandleInteraction(t, s, msg, user, reply, status) == HandleLlama(t, s, msg, user, reply, status)
  {
  }

  /**
   * A message ending in '?' from a user who has not finished is a digression,
   * whether or not the user has a flow: it raises the pending flag and goes
   * to the assistant.
   */
  lemma DigressionGoesToAssistant(t: Texts, s: Store, msg: string, user: string, reply: OracleResult, status: int)
    requires Complete(t) && !Finished(s, user) && Asks(msg)
    ensures HandleInteraction(t, s, msg, user, reply, status)
         == HandleLlama(t, s.(pending := s.pending + {user}), msg, user, reply, status)
  {
  }

  /**
   * "solved" (in any case) while the flag is up clears the flag and sends the
   * outstanding question again; the state stays on that question.
   */
  lemma SolvedResumesQuestion(t: Texts, s: Store, msg: string, user: string, reply: OracleResult, status: int)
    requires Complete(t) && !Finished(s, user)
    requires LowerIs(msg, "solved") && user in s.pending && user in s.states
    ensures var st := HandleInteraction(t, s, msg, user, reply, status);
      var prompt := t.questions[s.states[user]];
      && st.store == s.(pending := s.pending - {user}, calls := s.calls + [Send(prompt, user)])
      && st.out == (if status == Success then Text(t.asking + prompt) else SendFailed(status))
  {
    TokenIsNotQuestion(msg, "solved");
    NameInjective();
    var current := s.states[user];
    var s1 := s.(pending := s.pending - {user});
    assert HandleInteraction(t, s, msg, user, reply, status) == AskQuestion(t, s1, current, t.questions[current], user, status);
    assert s.states[user := current] == s.states;
  }

  /** The two commands cannot both match one message. */
  lemma CommandsDiffer(msg: string)
    ensures !(LowerIs(msg, "solved") && LowerIs(msg, "start report"))
  {
    LowerIsLower(msg, "solved");
    LowerIsLower(msg, "start report");
  }

  /**
   * "start report" (in any case) from a user who has not finished sends the
   * DNI prompt, the successor of 'start'. The state becomes 'dni' when the
   * send succeeds and stays 'start' when it fails; the answers and the flag
   * are kept.
   */
  lemma StartReportRestarts(t: Texts, s: Store, msg: string, user: string, reply: OracleResult, status: int)
    requires Complete(t) && !Finished(s, user) && LowerIs(msg, "start report")
    ensures var st := HandleInteraction(t, s, msg, user, reply, status);
      && st.store == s.(states := s.states[user := if status == Success then Dni else Start],
                        calls := s.calls + [Send(t.questions[Dni], user)])
      && st.out == (if status == Success then Text(t.asking + t.questions[Dni]) else SendFailed(status))
  {
    TokenIsNotQuestion(msg, "start report");
    CommandsDiffer(msg);
    var started := s.(states := s.states[user := Start]);
    assert HandleInteraction(t, s, msg, user, reply, status) == AskQuestion(t, started, Dni, t.questions[Dni], user, status);
  }

  /**
   * Any other message from a user without a flow gets the restart
   * instruction and calls no collaborator; a live "solved" drops the flag.
   */
  lemma NoFlowAsksForStart(t: Texts, s: Store, msg: string, user: string, reply: OracleResult, status: int)
    requires Complete(t) && user !in s.states && !Asks(msg) && !LowerIs(msg, "start report")
    ensures HandleInteraction(t, s, msg, user, reply, status)
         == Step(if LowerIs(msg, "solved") then s.(pending := s.pending - {user}) else s, Text(t.restart))
  {
    if LowerIs(msg, "solved") && user !in s.pending {
      assert s.pending - {user} == s.pending;
    }
  }

  /**
   * An ordinary message of a user on a question goes to `process_answer`
   * (a "solved" without the flag is an ordinary answer).
   */
  lemma RouteToAnswer(t: Texts, s: Store, msg: string, user: string, reply: OracleResult, status: int)
    requires Complete(t) && user in s.states && !Finished(s, user) && Ordinary(s, msg, user)
    ensures HandleInteraction(t, s, msg, user, reply, status) == ProcessAnswer(t, s, msg, s.states[user], user, status)
  {
  }

  // ---------------------------------------------------------------------
  // Answering a question.
  // ---------------------------------------------------------------------

  /** The answer is stored verbatim under the current key; flags and histories stay. */
  lemma AnswerRecords(t: Texts, s: Store, answer: string, current: Key, user: string, status: int)
    requires Complete(t)
    ensures var r := ProcessAnswer(t, s, answer, current, user, status).store;
      && r.responses == s.responses[user := Answers(s, user)[current := answer]]
      && r.pending == s.pending
      && r.history == s.history
  {
  }

  /** The state moves to the successor whatever the send of the next prompt returns. */
  lemma AnswerMoves(t: Texts, s: Store, answer: string, current: Key, user: string, status: int)
    requires Complete(t) && current != Finish
    ensures ProcessAnswer(t, s, answer, current, user, status).store.states
         == s.states[user := NextQuestion(current).value]
  {
    var next := NextQuestion(current).value;
    if next != Finish {
      var advanced := s.(responses := s.responses[user := Answers(s, user)[current := answer]],
                         states := s.states[user := next]);
      assert ProcessAnswer(t, s, answer, current, user, status)
          == AskQuestion(t, advanced, next, t.questions[next], user, status);
      assert advanced.states[user := next] == advanced.states;
    }
  }

  /** The calls of an answer: the next prompt, or the closing message, the report and the notification. */
  lemma AnswerCalls(t: Texts, s: Store, answer: string, current: Key, user: string, status: int)
    requires Complete(t) && current != Finish
    ensures var st := ProcessAnswer(t, s, answer, current, user, status);
      var next := NextQuestion(current).value;
      var answers := Answers(s, user)[current := answer];
      && st.store.calls == s.calls + (if next == Finish then
           [Send(t.questions[Finish], user),
            GeneratePdf(SummaryFields(answers), ReportFileName(user), t.reportTitle),
            Send(t.notification, user)]
         else [Send(t.questions[next], user)])
      && st.out == (if next == Finish then Text(t.summaryDone)
                    else if status == Success then Text(t.asking + t.questions[next])
                    else SendFailed(status))
  {
  }

  lemma {:induction false} RendersAppend(a: seq<Call>, b: seq<Call>)
    ensures Renders(a + b) == Renders(a) + Renders(b)
  {
    if a != [] {
      assert (a + b)[0] == a[0];
      assert (a + b)[1..] == a[1..] + b;
      RendersAppend(a[1..], b);
    } else {
      assert a + b == b;
    }
  }

  /** A log made of sends and model calls holds no rendering. */
  lemma {:induction false} NoRenders(calls: seq<Call>)
    requires forall i :: 0 <= i < |calls| ==> !calls[i].GeneratePdf?
    ensures Renders(calls) == 0
  {
    if calls != [] {
      NoRenders(calls[1..]);
    }
  }

  /** An answer renders the report exactly when it completes the last question. */
  lemma AnswerRenders(t: Texts, s: Store, answer: string, current: Key, user: string, status: int)
    requires Complete(t) && current != Finish
    ensures var r := ProcessAnswer(t, s, answer, current, user, status).store;
      && s.calls <= r.calls
      && Renders(r.calls) == Renders(s.calls) + (if current == MedicamentosActuales then 1 else 0)
  {
    AnswerCalls(t, s, answer, current, user, status);
    var r := ProcessAnswer(t, s, answer, current, user, status).store;
    var tail := r.calls[|s.calls|..];
    assert r.calls == s.calls + tail;
    RendersAppend(s.calls, tail);
    if current == MedicamentosActuales {
      NoRenders(tail[2..]);
      assert tail[1..][1..] == tail[2..];
    } else {
      NoRenders(tail);
    }
  }

  /**
   * An ordinary message from a user on a question other than the last
   * stores the answer, moves to the successor and sends its prompt.
   */
  lemma AnswerAdvances(t: Texts, s: Store, msg: string, user: string, reply: OracleResult, status: int)
    requires Complete(t) && user in s.states && !Finished(s, user) && Ordinary(s, msg, user)
    requires s.states[user] != MedicamentosActuales
    ensures var st := HandleInteraction(t, s, msg, user, reply, status);
      var k := s.states[user];
      var next := NextQuestion(k).value;
      && next != Finish
      && st.store == s.(responses := s.responses[user := Answers(s, user)[k := msg]],
                        states := s.states[user := next],
                        calls := s.calls + [Send(t.questions[next], user)])
      && st.out == (if status == Success then Text(t.asking + t.questions[next]) else SendFailed(status))
  {
    var k := s.states[user];
    RouteToAnswer(t, s, msg, user, reply, status);
    AnswerRecords(t, s, msg, k, user, status);
    AnswerMoves(t, s, msg, k, user, status);
    AnswerCalls(t, s, msg, k, user, status);
  }

  /**
   * Answering the last question sends the closing prompt, renders the report
   * once with all eight fields, notifies the user, finishes the flow and
   * reports success whatever the sends return.
   */
  lemma LastAnswerRendersReport(t: Texts, s: Store, msg: string, user: string, reply: OracleResult, status: int)
    requires Complete(t) && user in s.states && s.states[user] == MedicamentosActuales
    requires Ordinary(s, msg, user)
    ensures var st := HandleInteraction(t, s, msg, user, reply, status);
      var answers := Answers(s, user)[MedicamentosActuales := msg];
      && st.out == Text(t.summaryDone)
      && st.store == s.(responses := s.responses[user := answers],
                        states := s.states[user := Finish],
                        calls := s.calls + [Send(t.questions[Finish], user),
                                            GeneratePdf(SummaryFields(answers), ReportFileName(user), t.reportTitle),
                                            Send(t.notification, user)])
      && Renders(st.store.calls) == Renders(s.calls) + 1
  {
    var k := MedicamentosActuales;
    RouteToAnswer(t, s, msg, user, reply, status);
    AnswerRecords(t, s, msg, k, user, status);
    AnswerMoves(t, s, msg, k, user, status);
    AnswerCalls(t, s, msg, k, user, status);
    AnswerRenders(t, s, msg, k, user, status);
  }

  // ---------------------------------------------------------------------
  // The assistant turn.
  // ---------------------------------------------------------------------

  /** The reply text a turn stores and sends. */
  function ReplyText(t: Texts, reply: OracleResult): string
    requires !reply.Raises?
  {
    if reply.Returns? then reply.text else t.apology
  }

  /** An assistant turn changes neither the flow, the answers nor the flags. */
  lemma LlamaKeepsFlow(t: Texts, s: Store, msg: string, user: string, reply: OracleResult, status: int)
    ensures var r := HandleLlama(t, s, msg, user, reply, status).store;
      r.states == s.states && r.responses == s.responses && r.pending == s.pending
  {
  }

  /**
   * The model is asked with the stored history followed by the message; a
   * user without a stored history is first seeded with the assistant script
   * and the text of their answers.
   */
  lemma LlamaAsks(t: Texts, s: Store, msg: string, user: string, reply: OracleResult, status: int)
    ensures var r := HandleLlama(t, s, msg, user, reply, status).store;
      && |r.calls| > |s.calls| && r.calls[..|s.calls|] == s.calls
      && (user in s.history && s.history[user] != [] ==>
            r.calls[|s.calls|] == Invoke(s.history[user] + [Record(User, msg)]))
      && (user !in s.history || s.history[user] == [] ==>
            r.calls[|s.calls|] == Invoke(Seed(t, Answers(s, user)) + [Record(User, msg)]))
  {
  }

  /**
   * A turn whose model call returns adds exactly the user's record and the
   * assistant's record to the stored history (after the seed, for a first
   * turn), sends the reply, and the result follows the send's status.
   */
  lemma LlamaReplyAppendsTurn(t: Texts, s: Store, msg: string, user: string, reply: OracleResult, status: int)
    requires !reply.Raises?
    ensures var st := HandleLlama(t, s, msg, user, reply, status);
      var turn := [Record(User, msg), Record(Assistant, ReplyText(t, reply))];
      var asked := (if user in s.history && s.history[user] != [] then s.history[user]
                    else Seed(t, Answers(s, user))) + [Record(User, msg)];
      && user in st.store.history
      && st.store.history == s.history[user := asked + [Record(Assistant, ReplyText(t, reply))]]
      && (user in s.history && s.history[user] != [] ==>
            st.store.history[user] == s.history[user] + turn)
      && (user !in s.history || s.history[user] == [] ==>
            st.store.history[user] == Seed(t, Answers(s, user)) + turn)
      && st.store.calls == s.calls + [Invoke(asked), Send(ReplyText(t, reply), user)]
      && st.out == (if status == Success then Text(ReplyText(t, reply)) else SendFailed(status))
  {
  }

  /** A reply that is not a string is replaced by the apology, stored and sent. */
  lemma NonStringReplyApologises(t: Texts, s: Store, msg: string, user: string, status: int)
    ensures var st := HandleLlama(t, s, msg, user, ReturnsNonString, status);
      && user in st.store.history && |st.store.history[user]| > 0
      && st.store.history[user][|st.store.history[user]| - 1] == Record(Assistant, t.apology)
      && st.out == (if status == Success then Text(t.apology) else SendFailed(status))
  {
  }

  /**
   * When the model raises, the error is returned and nothing is sent. A user
   * without a stored history stores nothing; a stored history keeps the
   * user's record, which was appended to the stored list before the call.
   */
  lemma LlamaRaiseKeepsContext(t: Texts, s: Store, msg: string, user: string, e: string, status: int)
    ensures var st := HandleLlama(t, s, msg, user, Raises(e), status);
      && st.out == LlamaFailed(e)
      && |st.store.calls| == |s.calls| + 1 && st.store.calls[|s.calls|].Invoke?
      && (user !in s.history ==> st.store.history == s.history)
      && (user in s.history && s.history[user] != [] ==>
            st.store.history == s.history[user := s.history[user] + [Record(User, msg)]])
  {
  }

  /** An assistant turn renders nothing. */
  lemma LlamaRenders(t: Texts, s: Store, msg: string, user: string, reply: OracleResult, status: int)
    ensures var r := HandleLlama(t, s, msg, user, reply, status).store;
      s.calls <= r.calls && Renders(r.calls) == Renders(s.calls)
  {
    var r := HandleLlama(t, s, msg, user, reply, status).store;
    var invoke := r.calls[|s.calls|];
    if reply.Raises? {
      assert r.calls == s.calls + [invoke];
      RendersAppend(s.calls, [invoke]);
      NoRenders([invoke]);
    } else {
      var send := Send(ReplyText(t, reply), user);
      assert r.calls == s.calls + [invoke, send];
      RendersAppend(s.calls, [invoke, send]);
      NoRenders([invoke, send]);
    }
  }

  /** An assistant turn keeps every history seeded. */
  lemma LlamaKeepsSeeded(t: Texts, s: Store, msg: string, user: string, reply: OracleResult, status: int)
    requires HistoriesSeeded(t, s)
    ensures HistoriesSeeded(t, HandleLlama(t, s, msg, user, reply, status).store)
  {
    var r := HandleLlama(t, s, msg, user, reply, status).store;
    if user in r.history {
      var h := r.history[user];
      if user in s.history {
        var before := s.history[user];
        assert Seeded(t, before);
        assert h[..|before|] == before;
      } else {
        assert h[..2] == Seed(t, Answers(s, user));
      }
      assert Seeded(t, h);
    }
  }

  // ---------------------------------------------------------------------
  // What every message keeps.
  // ---------------------------------------------------------------------

  /** User `u`'s entries are equal in two states. */
  predicate SameFor(s: Store, r: Store, u: string) {
    && (u in r.pending <==> u in s.pending)
    && (u in r.states <==> u in s.states)
    && (u in s.states ==> r.states[u] == s.states[u])
    && (u in r.responses <==> u in s.responses)
    && (u in s.responses ==> r.responses[u] == s.responses[u])
    && (u in r.history <==> u in s.history)
    && (u in s.history ==> r.history[u] == s.history[u])
  }

  /** A stored history of `u` is still stored, extended at its end. */
  predicate Grown(s: Store, r: Store, u: string) {
    u in s.history ==> u in r.history && s.history[u] <= r.history[u]
  }

  lemma AnswerKeeps(t: Texts, s: Store, answer: string, current: Key, user: string, status: int, u: string)
    requires Complete(t) && current != Finish && u != user
    ensures SameFor(s, ProcessAnswer(t, s, answer, current, user, status).store, u)
  {
    AnswerRecords(t, s, answer, current, user, status);
    AnswerMoves(t, s, answer, current, user, status);
  }

  lemma LlamaKeeps(t: Texts, s: Store, msg: string, user: string, reply: OracleResult, status: int, u: string)
    ensures var r := HandleLlama(t, s, msg, user, reply, status).store;
      (u != user ==> SameFor(s, r, u)) && Grown(s, r, u)
  {
  }

  /** A message of one user leaves every other user's entries as they were. */
  lemma OtherUsersUntouched(t: Texts, s: Store, msg: string, user: string, reply: OracleResult, status: int, other: string)
    requires Complete(t) && other != user
    ensures SameFor(s, HandleInteraction(t, s, msg, user, reply, status).store, other)
  {
    if Finished(s, user) {
      FinishedTalksToAssistant(t, s, msg, user, reply, status);
      LlamaKeeps(t, s, msg, user, reply, status, other);
    } else if Asks(msg) {
      DigressionGoesToAssistant(t, s, msg, user, reply, status);
      LlamaKeeps(t, s.(pending := s.pending + {user}), msg, user, reply, status, other);
    } else if LowerIs(msg, "solved") && user in s.pending && user in s.states {
      SolvedResumesQuestion(t, s, msg, user, reply, status);
    } else if LowerIs(msg, "start report") {
      StartReportRestarts(t, s, msg, user, reply, status);
    } else if user in s.states {
      RouteToAnswer(t, s, msg, user, reply, status);
      AnswerKeeps(t, s, msg, s.states[user], user, status, other);
    } else {
      NoFlowAsksForStart(t, s, msg, user, reply, status);
    }
  }

  /** A stored history only ever grows at its end. */
  lemma HistoryOnlyGrows(t: Texts, s: Store, msg: string, user: string, reply: OracleResult, status: int, u: string)
    requires Complete(t)
    ensures Grown(s, HandleInteraction(t, s, msg, user, reply, status).store, u)
  {
    if Finished(s, user) {
      FinishedTalksToAssistant(t, s, msg, user, reply, status);
      LlamaKeeps(t, s, msg, user, reply, status, u);
    } else if Asks(msg) {
      DigressionGoesToAssistant(t, s, msg, user, reply, status);
      LlamaKeeps(t, s.(pending := s.pending + {user}), msg, user, reply, status, u);
    } else if LowerIs(msg, "solved") && user in s.pending && user in s.states {
      SolvedResumesQuestion(t, s, msg, user, reply, status);
    } else if LowerIs(msg, "start report") {
      StartReportRestarts(t, s, msg, user, reply, status);
    } else if user in s.states {
      RouteToAnswer(t, s, msg, user, reply, status);
      AnswerRecords(t, s, msg, s.states[user], user, status);
    } else {
      NoFlowAsksForStart(t, s, msg, user, reply, status);
    }
  }

  /** Appending one send adds no rendering. */
  lemma SendRendersNothing(calls: seq<Call>, text: string, user: string)
    ensures Renders(calls + [Send(text, user)]) == Renders(calls)
  {
    RendersAppend(calls, [Send(text, user)]);
    NoRenders([Send(text, user)]);
  }

  /**
   * The report is rendered exactly on the message that finishes the user's
   * flow, and on no other.
   */
  lemma RenderExactlyOnFinish(t: Texts, s: Store, msg: string, user: string, reply: OracleResult, status: int)
    requires Complete(t)
    ensures var r := HandleInteraction(t, s, msg, user, reply, status).store;
      && s.calls <= r.calls
      && Renders(r.calls) == Renders(s.calls) + (if Finished(r, user) && !Finished(s, user) then 1 else 0)
  {
    if Finished(s, user) {
      FinishedTalksToAssistant(t, s, msg, user, reply, status);
      LlamaRenders(t, s, msg, user, reply, status);
      LlamaKeepsFlow(t, s, msg, user, reply, status);
    } else if Asks(msg) {
      var base := s.(pending := s.pending + {user});
      DigressionGoesToAssistant(t, s, msg, user, reply, status);
      LlamaRenders(t, base, msg, user, reply, status);
      LlamaKeepsFlow(t, base, msg, user, reply, status);
    } else if LowerIs(msg, "solved") && user in s.pending && user in s.states {
      SolvedResumesQuestion(t, s, msg, user, reply, status);
      SendRendersNothing(s.calls, t.questions[s.states[user]], user);
    } else if LowerIs(msg, "start report") {
      StartReportRestarts(t, s, msg, user, reply, status);
      SendRendersNothing(s.calls, t.questions[Dni], user);
    } else if user in s.states {
      var k := s.states[user];
      RouteToAnswer(t, s, msg, user, reply, status);
      AnswerMoves(t, s, msg, k, user, status);
      AnswerRenders(t, s, msg, k, user, status);
    } else {
      NoFlowAsksForStart(t, s, msg, user, reply, status);
    }
  }

  /** A user's flow is never dropped, and a finished user stays finished. */
  lemma FlowNeverDropped(t: Texts, s: Store, msg: string, user: string, reply: OracleResult, status: int)
    requires Complete(t)
    ensures var r := HandleInteraction(t, s, msg, user, reply, status).store;
      && (user in s.states ==> user in r.states)
      && (Finished(s, user) ==> Finished(r, user))
  {
    if Finished(s, user) {
      FinishedTalksToAssistant(t, s, msg, user, reply, status);
      LlamaKeepsFlow(t, s, msg, user, reply, status);
    } else if Asks(msg) {
      DigressionGoesToAssistant(t, s, msg, user, reply, status);
      LlamaKeepsFlow(t, s.(pending := s.pending + {user}), msg, user, reply, status);
    } else if LowerIs(msg, "solved") && user in s.pending && user in s.states {
      SolvedResumesQuestion(t, s, msg, user, reply, status);
    } else if LowerIs(msg, "start report") {
      StartReportRestarts(t, s, msg, user, reply, status);
    } else if user in s.states {
      RouteToAnswer(t, s, msg, user, reply, status);
      AnswerMoves(t, s, msg, s.states[user], user, status);
    }
  }

  /** An answer never stores anything under the last key. */
  lemma AnswerKeepsNoFinalAnswer(t: Texts, s: Store, answer: string, current: Key, user: string, status: int)
    requires Complete(t) && current != Finish && NoFinalAnswer(s)
    ensures NoFinalAnswer(ProcessAnswer(t, s, answer, current, user, status).store)
  {
    AnswerRecords(t, s, answer, current, user, status);
  }

  /** Every message keeps the invariant of the dictionaries. */
  lemma InvPreserved(t: Texts, s: Store, msg: string, user: string, reply: OracleResult, status: int)
    requires Complete(t) && Inv(t, s)
    ensures Inv(t, HandleInteraction(t, s, msg, user, reply, status).store)
  {
    if Finished(s, user) {
      FinishedTalksToAssistant(t, s, msg, user, reply, status);
      LlamaKeepsFlow(t, s, msg, user, reply, status);
      LlamaKeepsSeeded(t, s, msg, user, reply, status);
    } else if Asks(msg) {
      var base := s.(pending := s.pending + {user});
      DigressionGoesToAssistant(t, s, msg, user, reply, status);
      LlamaKeepsFlow(t, base, msg, user, reply, status);
      LlamaKeepsSeeded(t, base, msg, user, reply, status);
    } else if LowerIs(msg, "solved") && user in s.pending && user in s.states {
      SolvedResumesQuestion(t, s, msg, user, reply, status);
    } else if LowerIs(msg, "start report") {
      StartReportRestarts(t, s, msg, user, reply, status);
    } else if user in s.states {
      var k := s.states[user];
      RouteToAnswer(t, s, msg, user, reply, status);
      AnswerKeepsNoFinalAnswer(t, s, msg, k, user, status);
    } else {
      NoFlowAsksForStart(t, s, msg, user, reply, status);
    }
  }

  // ---------------------------------------------------------------------
  // Runs of messages.
  // ---------------------------------------------------------------------

  /** The empty state satisfies the invariant. */
  lemma EmptyInv(t: Texts)
    ensures Inv(t, Empty) && Renders(Empty.calls) == 0
  {
  }

  lemma {:induction false} RunKeepsInv(t: Texts, s: Store, user: string, inputs: seq<Input>)
    requires Complete(t) && Inv(t, s)
    ensures Inv(t, Run(t, s, user, inputs))
    decreases |inputs|
  {
    if inputs != [] {
      var i := inputs[0];
      InvPreserved(t, s, i.msg, user, i.reply, i.status);
      RunKeepsInv(t, HandleInteraction(t, s, i.msg, user, i.reply, i.status).store, user, inputs[1..]);
    }
  }

  /** Once a user has finished, no run of messages takes them back to the questionnaire. */
  lemma {:induction false} FinishIsAbsorbing(t: Texts, s: Store, user: string, inputs: seq<Input>)
    requires Complete(t) && Finished(s, user)
    ensures Finished(Run(t, s, user, inputs), user)
    decreases |inputs|
  {
    if inputs != [] {
      var i := inputs[0];
      FlowNeverDropped(t, s, i.msg, user, i.reply, i.status);
      FinishIsAbsorbing(t, HandleInteraction(t, s, i.msg, user, i.reply, i.status).store, user, inputs[1..]);
    }
  }

  /**
   * Over any run of a user's messages the report is rendered at most once:
   * once if the run finishes a flow that was not finished, and never otherwise.
   */
  lemma {:induction false} RunRendersAtMostOnce(t: Texts, s: Store, user: string, inputs: seq<Input>)
    requires Complete(t)
    ensures var e := Run(t, s, user, inputs);
      && s.calls <= e.calls
      && Renders(e.calls) == Renders(s.calls) + (if Finished(e, user) && !Finished(s, user) then 1 else 0)
    decreases |inputs|
  {
    if inputs != [] {
      var i := inputs[0];
      var next := HandleInteraction(t, s, i.msg, user, i.reply, i.status).store;
      RenderExactlyOnFinish(t, s, i.msg, user, i.reply, i.status);
      FlowNeverDropped(t, s, i.msg, user, i.reply, i.status);
      RunRendersAtMostOnce(t, next, user, inputs[1..]);
      if Finished(next, user) {
        FinishIsAbsorbing(t, next, user, inputs[1..]);
      }
    }
  }

  /** Handling one user's messages is serving them tagged with that user. */
  lemma {:induction false} RunIsServe(t: Texts, s: Store, user: string, inputs: seq<Input>)
    requires Complete(t)
    ensures Run(t, s, user, inputs) == Serve(t, s, From(user, inputs))
    decreases |inputs|
  {
    if inputs != [] {
      var i := inputs[0];
      assert From(user, inputs)[0] == (user, i);
      assert From(user, inputs)[1..] == From(user, inputs[1..]);
      RunIsServe(t, HandleInteraction(t, s, i.msg, user, i.reply, i.status).store, user, inputs[1..]);
    }
  }

  /** Messages from any users, in any interleaving, keep the invariant. */
  lemma {:induction false} ServeKeepsInv(t: Texts, s: Store, arrivals: seq<(string, Input)>)
    requires Complete(t) && Inv(t, s)
    ensures Inv(t, Serve(t, s, arrivals))
    decreases |arrivals|
  {
    if arrivals != [] {
      var (user, i) := arrivals[0];
      InvPreserved(t, s, i.msg, user, i.reply, i.status);
      ServeKeepsInv(t, HandleInteraction(t, s, i.msg, user, i.reply, i.status).store, arrivals[1..]);
    }
  }

  /** A finished user stays finished whoever else sends messages in between. */
  lemma {:induction false} ServeKeepsFinished(t: Texts, s: Store, arrivals: seq<(string, Input)>, u: string)
    requires Complete(t) && Finished(s, u)
    ensures Finished(Serve(t, s, arrivals), u)
    decreases |arrivals|
  {
    if arrivals != [] {
      var (user, i) := arrivals[0];
      if user == u {
        FlowNeverDropped(t, s, i.msg, user, i.reply, i.status);
      } else {
        OtherUsersUntouched(t, s, i.msg, user, i.reply, i.status, u);
      }
      ServeKeepsFinished(t, HandleInteraction(t, s, i.msg, user, i.reply, i.status).store, arrivals[1..], u);
    }
  }

  // ---------------------------------------------------------------------
  // The HTTP responses of the handlers.
  // ---------------------------------------------------------------------

  /** A failed send answers 500 with a body that opens with the fixed text and ends with the status. */
  lemma FailedSendReportsStatus(status: int)
    ensures var b := SendFailed(status).Body();
      && SendFailed(status).Code() == 500
      && |SendFailurePrefix| <= |b| && b[..|SendFailurePrefix|] == SendFailurePrefix
      && ReadInt(b[|SendFailurePrefix|..]) == Some(status)
  {
    var b := SendFailed(status).Body();
    assert b[|SendFailurePrefix|..] == IntToString(status);
  }

  /**
   * The response tells the outcomes apart: equal status codes and bodies
   * come from the same outcome.
   */
  lemma ResponseDeterminesOutcome(a: Outcome, b: Outcome)
    requires a.Code() == b.Code() && a.Body() == b.Body()
    ensures a == b
  {
    if a.SendFailed? && b.SendFailed? {
      FailedSendReportsStatus(a.status);
      FailedSendReportsStatus(b.status);
    } else if a.LlamaFailed? && b.LlamaFailed? {
      assert a.Body()[|LlamaFailurePrefix|..] == a.error;
      assert b.Body()[|LlamaFailurePrefix|..] == b.error;
    } else if a.SendFailed? && b.LlamaFailed? {
      FailurePrefixesDiffer(IntToString(a.status), b.error);
      assert false;
    } else if a.LlamaFailed? && b.SendFailed? {
      FailurePrefixesDiffer(IntToString(b.status), a.error);
      assert false;
    }
  }

  /** The two error bodies differ from their first character on. */
  lemma FailurePrefixesDiffer(x: string, y: string)
    ensures SendFailurePrefix + x != LlamaFailurePrefix + y
  {
    assert (SendFailurePrefix + x)[0] != (LlamaFailurePrefix + y)[0];
  }
}
