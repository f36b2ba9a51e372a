/**
 * Whole conversations of one user, for any complete wording: a questionnaire
 * taken from the first message to the report, a first prompt that is not
 * delivered, a digression in the middle of it, and a message from someone
 * who never started.
 */
module Scenarios {
  import opened Strings
  import opened Script
  import opened Wording
  import opened Flow
  import opened FlowProperties

  /** Handling the first input, then the rest. */
  lemma RunStep(t: Texts, s: Store, user: string, i: Input, rest: seq<Input>)
    requires Complete(t)
    ensures Run(t, s, user, [i] + rest) == Run(t, HandleInteraction(t, s, i.msg, user, i.reply, i.status).store, user, rest)
  {
    assert ([i] + rest)[0] == i;
    assert ([i] + rest)[1..] == rest;
  }

  /** An answer that is no command, given while the user has no digression pending. */
  predicate PlainAnswer(msg: string) {
    !Asks(msg) && !LowerIs(msg, "start report")
  }

  /** The answers of a new user, one per question from DNI to current medication. */
  function Collected(a: seq<string>): map<Key, string>
    requires |a| == 6
  {
    map[Dni := a[0], Edad := a[1], Operaciones := a[2], Alergias := a[3],
        EnfermedadesCronicas := a[4], MedicamentosActuales := a[5]]
  }

  /** The state after a plain answer to `s.states[user]`, not the last question, is delivered. */
  function Advanced(t: Texts, s: Store, user: string, x: string): Store
    requires Complete(t) && user in s.states && s.states[user] != Finish
  {
    var next := NextQuestion(s.states[user]).value;
    s.(responses := s.responses[user := Answers(s, user)[s.states[user] := x]],
       states := s.states[user := next],
       calls := s.calls + [Send(t.questions[next], user)])
  }

  /** One answer on the way: the state advances and the answer is added. */
  lemma AnswerStep(t: Texts, s: Store, x: string, user: string, rest: seq<Input>)
    requires Complete(t) && user in s.states && s.states[user] != Finish && s.states[user] != MedicamentosActuales
    requires PlainAnswer(x) && user !in s.pending
    ensures Run(t, s, user, [Input(x, ReturnsNonString, Success)] + rest) == Run(t, Advanced(t, s, user, x), user, rest)
  {
    AnswerAdvances(t, s, x, user, ReturnsNonString, Success);
    RunStep(t, s, user, Input(x, ReturnsNonString, Success), rest);
  }

  /** Plain answers, each sent with its prompts delivered. */
  function Replies(xs: seq<string>): (r: seq<Input>)
    ensures |r| == |xs| && forall i :: 0 <= i < |xs| ==> r[i] == Input(xs[i], ReturnsNonString, Success)
  {
    seq(|xs|, i requires 0 <= i < |xs| => Input(xs[i], ReturnsNonString, Success))
  }

  /** How many questions are left to answer from `k` on, `k` included. */
  function Remaining(k: Key): (n: nat)
    ensures k == Finish <==> n == 0
  {
    match k
    case Start => 7
    case Dni => 6
    case Edad => 5
    case Operaciones => 4
    case Alergias => 3
    case EnfermedadesCronicas => 2
    case MedicamentosActuales => 1
    case Finish => 0
  }

  /** Each answer leaves one question fewer. */
  lemma RemainingNext(k: Key)
    requires k != Finish
    ensures Remaining(NextQuestion(k).value) == Remaining(k) - 1
  {
  }

  /** `m` with the answers `xs` stored under `k` and the questions after it, in order. */
  function Filled(m: map<Key, string>, k: Key, xs: seq<string>): map<Key, string>
    requires |xs| <= Remaining(k)
    decreases |xs|
  {
    if xs == [] then m
    else
      RemainingNext(k);
      Filled(m[k := xs[0]], NextQuestion(k).value, xs[1..])
  }

  /** The answer to the last question: the flow finishes with the answer stored. */
  lemma LastAnswer(t: Texts, s: Store, user: string, xs: seq<string>)
    requires Complete(t) && |xs| == 1 && PlainAnswer(xs[0])
    requires user in s.states && s.states[user] == MedicamentosActuales && user !in s.pending
    ensures var e := Run(t, s, user, Replies(xs));
      && Finished(e, user)
      && user in e.responses && e.responses[user] == Filled(Answers(s, user), MedicamentosActuales, xs)
  {
    assert Replies(xs) == [Replies(xs)[0]] + [];
    RunStep(t, s, user, Replies(xs)[0], []);
    LastAnswerRendersReport(t, s, xs[0], user, ReturnsNonString, Success);
    assert Filled(Answers(s, user), MedicamentosActuales, xs) == Answers(s, user)[MedicamentosActuales := xs[0]];
  }

  /**
   * From any question `k` on, one plain answer per remaining question
   * finishes the flow and stores each answer under its question.
   */
  lemma {:induction false} AnswersFinish(t: Texts, s: Store, user: string, xs: seq<string>, k: Key)
    requires Complete(t) && k != Finish && |xs| == Remaining(k)
    requires user in s.states && s.states[user] == k && user !in s.pending
    requires forall i :: 0 <= i < |xs| ==> PlainAnswer(xs[i])
    ensures var e := Run(t, s, user, Replies(xs));
      && Finished(e, user)
      && user in e.responses && e.responses[user] == Filled(Answers(s, user), k, xs)
    decreases |xs|
  {
    if k == MedicamentosActuales {
      LastAnswer(t, s, user, xs);
    } else {
      assert Replies(xs) == [Input(xs[0], ReturnsNonString, Success)] + Replies(xs[1..]);
      AnswerStep(t, s, xs[0], user, Replies(xs[1..]));
      RemainingNext(k);
      var r := Advanced(t, s, user, xs[0]);
      AnswersFinish(t, r, user, xs[1..], NextQuestion(k).value);
    }
  }

  lemma CollectedFilled(a: seq<string>)
    requires |a| == 6
    ensures Filled(map[], Dni, a) == Collected(a)
  {
    var m: map<Key, string> := map[];
    assert Filled(m, Dni, a) == Filled(m[Dni := a[0]], Edad, a[1..]);
    assert Filled(m[Dni := a[0]], Edad, a[1..])
        == Filled(m[Dni := a[0]][Edad := a[1]], Operaciones, a[2..]) by { assert a[1..][1..] == a[2..]; }
    assert Filled(m[Dni := a[0]][Edad := a[1]], Operaciones, a[2..])
        == Filled(m[Dni := a[0]][Edad := a[1]][Operaciones := a[2]], Alergias, a[3..]) by { assert a[2..][1..] == a[3..]; }
    assert Filled(m[Dni := a[0]][Edad := a[1]][Operaciones := a[2]], Alergias, a[3..])
        == Filled(m[Dni := a[0]][Edad := a[1]][Operaciones := a[2]][Alergias := a[3]], EnfermedadesCronicas, a[4..])
        by { assert a[3..][1..] == a[4..]; }
    assert Filled(m[Dni := a[0]][Edad := a[1]][Operaciones := a[2]][Alergias := a[3]], EnfermedadesCronicas, a[4..])
        == Filled(m[Dni := a[0]][Edad := a[1]][Operaciones := a[2]][Alergias := a[3]][EnfermedadesCronicas := a[4]],
                  MedicamentosActuales, a[5..])
        by { assert a[4..][1..] == a[5..]; }
    assert Filled(m[Dni := a[0]][Edad := a[1]][Operaciones := a[2]][Alergias := a[3]][EnfermedadesCronicas := a[4]],
                  MedicamentosActuales, a[5..])
        == m[Dni := a[0]][Edad := a[1]][Operaciones := a[2]][Alergias := a[3]][EnfermedadesCronicas := a[4]]
            [MedicamentosActuales := a[5]]
        by { assert a[5..][1..] == []; }
  }

  /** The report of those answers leaves 'start' and 'finish' not provided. */
  lemma Unasked(a: seq<string>)
    requires |a| == 6
    ensures SummaryFields(Collected(a))[Start] == NotProvided
    ensures SummaryFields(Collected(a))[Finish] == NotProvided
  {
  }

  /** The first message of a new user: "start report", in any case, puts them on the DNI question. */
  lemma StartStep(t: Texts, user: string, cmd: string, rest: seq<Input>)
    requires Complete(t) && LowerIs(cmd, "start report")
    ensures var s1 := Empty.(states := map[user := Dni], calls := [Send(t.questions[Dni], user)]);
      Run(t, Empty, user, [Input(cmd, ReturnsNonString, Success)] + rest) == Run(t, s1, user, rest)
  {
    var start := Input(cmd, ReturnsNonString, Success);
    var s1 := Empty.(states := map[user := Dni], calls := [Send(t.questions[Dni], user)]);
    StartReportRestarts(t, Empty, cmd, user, start.reply, start.status);
    assert HandleInteraction(t, Empty, cmd, user, start.reply, start.status).store == s1 by {
      assert Empty.calls + [Send(t.questions[Dni], user)] == [Send(t.questions[Dni], user)];
      assert Empty.states[user := Dni] == map[user := Dni];
    }
    RunStep(t, Empty, user, start, rest);
  }

  /** The questionnaire's inputs: a start command, then one answer per question. */
  function Questionnaire(cmd: string, a: seq<string>): seq<Input> {
    [Input(cmd, ReturnsNonString, Success)] + Replies(a)
  }

  /**
   * A start command followed by six plain answers completes the
   * questionnaire: the user is finished and the six answers are stored
   * under DNI to current medication. The opening 'start' question is never
   * asked, so the report gives it, like 'finish', as not provided.
   */
  lemma FullQuestionnaire(t: Texts, user: string, cmd: string, a: seq<string>)
    requires Complete(t) && LowerIs(cmd, "start report") && |a| == 6
    requires forall i :: 0 <= i < 6 ==> PlainAnswer(a[i])
    ensures var e := Run(t, Empty, user, Questionnaire(cmd, a));
      && Finished(e, user)
      && user in e.responses && e.responses[user] == Collected(a)
      && SummaryFields(Collected(a))[Start] == NotProvided
      && SummaryFields(Collected(a))[Finish] == NotProvided
  {
    var s1 := Empty.(states := map[user := Dni], calls := [Send(t.questions[Dni], user)]);
    StartStep(t, user, cmd, Replies(a));
    AnswersFinish(t, s1, user, a, Dni);
    CollectedFilled(a);
    Unasked(a);
  }

  /** Over the whole questionnaire the report is rendered exactly once. */
  lemma QuestionnaireRendersOnce(t: Texts, user: string, cmd: string, a: seq<string>)
    requires Complete(t) && LowerIs(cmd, "start report") && |a| == 6
    requires forall i :: 0 <= i < 6 ==> PlainAnswer(a[i])
    ensures Renders(Run(t, Empty, user, Questionnaire(cmd, a)).calls) == 1
  {
    FullQuestionnaire(t, user, cmd, a);
    RunRendersAtMostOnce(t, Empty, user, Questionnaire(cmd, a));
  }

  /**
   * A question in the middle of the questionnaire, then "solved": the
   * assistant answers, the same question is asked again, and the flow,
   * the answers and the flags are as they were before the digression.
   */
  lemma DigressionThenSolved(t: Texts, s: Store, user: string, q: string, reply: OracleResult, solved: string)
    requires Complete(t) && user in s.states && s.states[user] != Finish && user !in s.pending
    requires Asks(q) && LowerIs(solved, "solved")
    ensures var e := Run(t, s, user, [Input(q, reply, Success), Input(solved, ReturnsNonString, Success)]);
      && e.states == s.states && e.responses == s.responses && e.pending == s.pending
      && |e.calls| > 0 && e.calls[|e.calls| - 1] == Send(t.questions[s.states[user]], user)
  {
    var i1, i2 := Input(q, reply, Success), Input(solved, ReturnsNonString, Success);
    var asked := s.(pending := s.pending + {user});
    DigressionGoesToAssistant(t, s, q, user, reply, Success);
    LlamaKeepsFlow(t, asked, q, user, reply, Success);
    var r1 := HandleInteraction(t, s, q, user, reply, Success).store;
    RunStep(t, s, user, i1, [i2]);
    SolvedResumesQuestion(t, r1, solved, user, ReturnsNonString, Success);
    RunStep(t, r1, user, i2, []);
    assert r1.pending - {user} == s.pending;
  }

  /**
   * When the DNI prompt of "start report" is not delivered, the state stays
   * on 'start'. The next plain message is then stored as the answer to
   * 'start', the report shows it there, and DNI is asked again.
   */
  lemma UndeliveredStartAnswersStart(t: Texts, user: string, cmd: string, status: int, x: string)
    requires Complete(t) && LowerIs(cmd, "start report") && status != Success && PlainAnswer(x)
    ensures var e := Run(t, Empty, user, [Input(cmd, ReturnsNonString, status), Input(x, ReturnsNonString, Success)]);
      && user in e.states && e.states[user] == Dni
      && user in e.responses && Start in e.responses[user] && e.responses[user][Start] == x
      && SummaryFields(e.responses[user])[Start] == x
  {
    var i1, i2 := Input(cmd, ReturnsNonString, status), Input(x, ReturnsNonString, Success);
    StartReportRestarts(t, Empty, cmd, user, i1.reply, i1.status);
    var r1 := HandleInteraction(t, Empty, cmd, user, i1.reply, i1.status).store;
    assert r1.states[user] == Start && r1.pending == {} && r1.responses == map[];
    AnswerAdvances(t, r1, x, user, i2.reply, i2.status);
    RunStep(t, Empty, user, i1, [i2]);
    RunStep(t, r1, user, i2, []);
  }

  /**
   * A first message from someone who never started that is neither a
   * question nor "start report" gets the instruction to start, and leaves
   * the service exactly as it was: no state, no answers, no call.
   */
  lemma NewcomerIsToldToStart(t: Texts, user: string, x: string, reply: OracleResult, status: int)
    requires Complete(t) && PlainAnswer(x)
    ensures HandleInteraction(t, Empty, x, user, reply, status).out == Text(t.restart)
    ensures Run(t, Empty, user, [Input(x, reply, status)]) == Empty
  {
    NoFlowAsksForStart(t, Empty, x, user, reply, status);
    assert Empty.pending - {user} == Empty.pending;
    RunStep(t, Empty, user, Input(x, reply, status), []);
  }
}
