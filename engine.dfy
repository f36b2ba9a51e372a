/**
 * The service itself: one object holding the four module-level dictionaries
 * (`user_interactions`, `user_states`, `user_responses`,
 * `conversation_history`) as fields it updates in place, plus the log of
 * calls made to the collaborators. Each handler is a method proved to leave
 * the object exactly in the state, and to return exactly the result, that
 * the specification in module Flow gives for the same inputs.
 */
module Server {
  import opened Strings
  import opened Script
  import opened Wording
  import opened Flow
  import FlowProperties

  class Engine {
    var pending: set<string>
    var states: map<string, Key>
    var responses: map<string, map<Key, string>>
    var history: map<string, seq<Record>>
    var calls: seq<Call>

    /** The bot's wording and `questions_dict` (`Wording.Original` in the service). */
    const texts: Texts

    /** The dictionaries and the call log as a value. */
    function Snapshot(): Store
      reads this
    {
      Store(pending, states, responses, history, calls)
    }

    /** At start-up every dictionary is empty and nothing has been called. */
    constructor (t: Texts)
      ensures texts == t && Snapshot() == Empty
    {
      texts := t;
      pending := {};
      states := map[];
      responses := map[];
      history := map[];
      calls := [];
    }

    method AskQuestion(key: Key, text: string, user: string, status: int) returns (out: Outcome)
      modifies this
      ensures var st := Flow.AskQuestion(texts, old(Snapshot()), key, text, user, status);
        Snapshot() == st.store && out == st.out
    {
      calls := calls + [Send(text, user)];
      if status != Success {
        return SendFailed(status);
      }
      states := states[user := key];
      return Text(texts.asking + text);
    }

    method PrepareSummary(user: string) returns (out: Outcome)
      modifies this
      ensures var st := Flow.PrepareSummary(texts, old(Snapshot()), user);
        Snapshot() == st.store && out == st.out
    {
      var answers := if user in responses then responses[user] else map[];
      var fields := SummaryFields(answers);
      calls := calls + [GeneratePdf(fields, ReportFileName(user), texts.reportTitle)];
      calls := calls + [Send(texts.notification, user)];
      return Text(texts.summaryDone);
    }

    method ProcessAnswer(answer: string, current: Key, user: string, status: int) returns (out: Outcome)
      requires Complete(texts)
      modifies this
      ensures var st := Flow.ProcessAnswer(texts, old(Snapshot()), answer, current, user, status);
        Snapshot() == st.store && out == st.out
    {
      ghost var s0 := Snapshot();
      var answers := if user in responses then responses[user] else map[];
      responses := responses[user := answers[current := answer]];
      ghost var recorded := Snapshot();
      assert recorded == s0.(responses := s0.responses[user := Answers(s0, user)[current := answer]]);
      match NextQuestion(current)
      case None =>
        states := states - {user};
        out := Text(texts.unexpectedEnd);
      case Some(next) =>
        states := states[user := next];
        if next == Finish {
          calls := calls + [Send(texts.questions[Finish], user)];
          ghost var told := Snapshot();
          assert told == recorded.(states := recorded.states[user := next],
                                   calls := recorded.calls + [Send(texts.questions[Finish], user)]);
          out := PrepareSummary(user);
          states := states[user := Finish];
        } else {
          assert Snapshot() == recorded.(states := recorded.states[user := next]);
          out := AskQuestion(next, texts.questions[next], user, status);
        }
    }

    /**
     * The stored history list is the one extended in place: when the model
     * raises, a history that was already stored keeps the user's record,
     * while a list that was not stored yet is dropped.
     */
    method HandleLlama(msg: string, user: string, reply: OracleResult, status: int) returns (out: Outcome)
      modifies this
      ensures var st := Flow.HandleLlama(texts, old(Snapshot()), msg, user, reply, status);
        Snapshot() == st.store && out == st.out
    {
      var stored := user in history;
      var h := if stored then history[user] else [];
      if h == [] {
        h := Seed(texts, if user in responses then responses[user] else map[]);
      }
      h := h + [Record(User, msg)];
      if reply.Raises? {
        if stored {
          history := history[user := h];
        }
        calls := calls + [Invoke(h)];
        out := LlamaFailed(reply.error);
      } else {
        var answer := if reply.Returns? then reply.text else texts.apology;
        history := history[user := h + [Record(Assistant, answer)]];
        calls := calls + [Invoke(h), Send(answer, user)];
        out := if status != Success then SendFailed(status) else Text(answer);
      }
    }

    method ProcessQuestionnaire(msg: string, user: string, reply: OracleResult, status: int) returns (out: Outcome)
      requires Complete(texts)
      modifies this
      ensures var st := Flow.ProcessQuestionnaire(texts, old(Snapshot()), msg, user, reply, status);
        Snapshot() == st.store && out == st.out
    {
      if Asks(msg) {
        pending := pending + {user};
        out := HandleLlama(msg, user, reply, status);
        return;
      }
      if LowerIs(msg, "solved") && user in pending {
        pending := pending - {user};
        if user in states {
          var current := states[user];
          if Name(current) != "" {
            out := AskQuestion(current, PromptOr(texts, current), user, status);
          } else {
            out := Text(texts.restartAfterError);
          }
          return;
        }
      }
      if LowerIs(msg, "start report") {
        states := states[user := Start];
        var next := NextQuestion(states[user]);
        out := AskQuestion(next.value, texts.questions[next.value], user, status);
        return;
      }
      if user in states {
        var current := states[user];
        if NextQuestion(current).Some? {
          out := ProcessAnswer(msg, current, user, status);
        } else {
          states := states - {user};
          out := Text(texts.reportCompleted);
        }
        return;
      }
      out := Text(texts.restart);
    }

    /** Handles one inbound message; the invariant of the dictionaries is kept. */
    method HandleInteraction(msg: string, user: string, reply: OracleResult, status: int) returns (out: Outcome)
      requires Complete(texts)
      modifies this
      ensures var st := Flow.HandleInteraction(texts, old(Snapshot()), msg, user, reply, status);
        Snapshot() == st.store && out == st.out
      ensures Inv(texts, old(Snapshot())) ==> Inv(texts, Snapshot())
    {
      ghost var before := Snapshot();
      if user !in states || states[user] != Finish {
        out := ProcessQuestionnaire(msg, user, reply, status);
      } else {
        out := HandleLlama(msg, user, reply, status);
      }
      if Inv(texts, before) {
        FlowProperties.InvPreserved(texts, before, msg, user, reply, status);
      }
    }
  }
}
