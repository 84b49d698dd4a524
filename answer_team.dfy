/**
 * The answer team (`AnswerSupervisor`): a deterministic loop that answers the questions in
 * order. Each answer generator run gives the refinement subgraph a fresh two-entry log (the
 * context and the next unanswered question), picks answer and explanation out of the
 * subgraph's log, and keeps them only when they pass the self-reference guard.
 */
module AnswerTeam {
  import opened Base
  import opened Messages
  import opened Memory
  import opened Text
  import opened AgentUtils
  import opened Reflection

  const Supervisor := "supervisor"
  const AnswerWorker := "answer_generator"

  const AnswerKey := "answer"
  const ExplanationKey := "explanation"

  const QuestionHeading := "### Question:\n\n"
  const AnswerHeading := "[Generated the answer and explanation]\n\nAnswer: "
  const ExplanationLabel := "\n\nExplanation: "
  const AnswerRetryNote := "Answer and explanation not generated. PLEASE TRY AGAIN."

  /** Phrases that betray the reflection loop; an answer or explanation containing one is rejected. */
  const Targets: seq<string> := [
    "user's question", "user's answer", "user's explanation",
    "original question", "original answer", "original explanation",
    "upon reflection", "initial answer", "initial explanation", "initial question"]

  // ---------------------------------------------------------------------------------------
  // The self-reference guard

  /** Neither text, lower-cased, contains any target phrase. */
  predicate PassesGuard(answer: string, explanation: string) {
    forall k :: 0 <= k < |Targets| ==> !Contains(Lower(answer), Targets[k]) && !Contains(Lower(explanation), Targets[k])
  }

  /** `check_answer_explanation`: scans the targets in order and rejects at the first hit. */
  method CheckAnswerExplanation(answer: string, explanation: string) returns (ok: bool)
    ensures ok == PassesGuard(answer, explanation)
  {
    var a := Lower(answer);
    var e := Lower(explanation);
    for k := 0 to |Targets|
      invariant forall j :: 0 <= j < k ==> !Contains(a, Targets[j]) && !Contains(e, Targets[j])
    {
      if Contains(a, Targets[k]) || Contains(e, Targets[k]) {
        return false;
      }
    }
    return true;
  }

  lemma LowerIdempotent(s: string)
    ensures Lower(Lower(s)) == Lower(s)
  {
  }

  /** The guard ignores case: lower-casing the texts first changes nothing. */
  lemma GuardIgnoresCase(answer: string, explanation: string)
    ensures PassesGuard(Lower(answer), Lower(explanation)) == PassesGuard(answer, explanation)
  {
    LowerIdempotent(answer);
    LowerIdempotent(explanation);
  }

  /** A target phrase anywhere in the lower-cased answer makes the guard reject it. */
  lemma GuardRejectsTarget(answer: string, explanation: string, k: nat, at: nat)
    requires k < |Targets| && OccursAt(Lower(answer), Targets[k], at)
    ensures !PassesGuard(answer, explanation)
  {
    ContainsIff(Lower(answer), Targets[k]);
  }

  // ---------------------------------------------------------------------------------------
  // The nodes

  /** `supervisor_node`: the end once there are as many answers as questions, else the answer generator. */
  function AnswerRoute(questions: seq<string>, answers: seq<AnswerRecord>): (c: Command)
    ensures c == RouteCommand(c.goto)
    ensures c.goto == End <==> |questions| == |answers|
    ensures c.goto == End || c.goto == AnswerWorker
  {
    RouteCommand(if |questions| == |answers| then End else AnswerWorker)
  }

  /** The subgraph's input: the team's first log entry and the question to answer. */
  function AnswerInput(context: Message, question: string): seq<Message> {
    [context, Human(QuestionHeading + question, None)]
  }

  /** The answer and explanation picked out of the subgraph's log, by the question team's revision name. */
  function ExtractAnswer(response: seq<Message>): Result<AnswerRecord, Error> {
    var message :- ExtractMessage(response, SchemaName(QuestionRevision));
    var answer :- FirstCallStr(message, AnswerKey);
    var explanation :- FirstCallStr(message, ExplanationKey);
    Ok(AnswerRecord(answer, explanation))
  }

  /**
   * The revision name compared is the question team's, so a log ending in an answer
   * generation reply is always read at its second-to-last entry: an answer revision there
   * gives its answer and explanation.
   */
  lemma ExtractAnswerReadsRevision(response: seq<Message>, answer: string, explanation: string)
    requires |response| >= 2
    requires var last := response[|response| - 1];
      last.AI? && |last.toolCalls| > 0 && last.toolCalls[0].name == SchemaName(AnswerGeneration)
    requires var prev := response[|response| - 2];
      && prev.AI? && |prev.toolCalls| > 0
      && AnswerKey in prev.toolCalls[0].args && prev.toolCalls[0].args[AnswerKey] == Str(answer)
      && ExplanationKey in prev.toolCalls[0].args && prev.toolCalls[0].args[ExplanationKey] == Str(explanation)
    ensures ExtractAnswer(response) == Ok(AnswerRecord(answer, explanation))
  {
    assert SchemaName(AnswerGeneration) != SchemaName(QuestionRevision) by {
      assert SchemaName(AnswerGeneration)[0] != SchemaName(QuestionRevision)[0];
    }
  }

  /** A reflect reply of the answer subgraph is never taken from the log's last entry: its name is not the one compared. */
  lemma AnswerRevisionNotTakenLast(response: seq<Message>)
    requires EndsWithRevision(response, SchemaName(ChainSchema(Answer, true)))
    ensures var m := ExtractMessage(response, SchemaName(QuestionRevision));
      m.Ok? ==> |response| >= 2 && m.value == response[|response| - 2]
  {
    assert SchemaName(AnswerRevision) != SchemaName(QuestionRevision) by {
      assert SchemaName(AnswerRevision)[0] != SchemaName(QuestionRevision)[0];
    }
  }

  /** A subgraph run that stops at its first generate step never yields an answer. */
  lemma FirstStopYieldsNoAnswer(o: Oracle, calls: nat, delays: seq<real>, context: Message, question: string)
    ensures var run := RefineFrom(o, Answer, AnswerLogCap, calls, delays, AnswerInput(context, question));
      run.result.Ok? && run.generations == 1 && !EndsWithRevision(run.result.value, SchemaName(QuestionRevision))
      ==> ExtractAnswer(run.result.value).Err?
  {
    FirstStopExtractionFails(o, Answer, AnswerLogCap, calls, delays, AnswerInput(context, question), SchemaName(QuestionRevision));
  }

  /**
   * What the answer generator returns once its subgraph ran: the note and the answer when
   * extraction worked and the guard passed, else only the retry note. The questions are
   * always re-added unchanged.
   */
  function AnswerCommand(questions: seq<string>, extracted: Result<AnswerRecord, Error>, passes: bool): (c: Command)
    ensures c.goto == Supervisor && c.update.next.None?
    ensures c.update.questions == Some(QuestionsUpdate(AddTag, questions))
    ensures |c.update.messages| == 1 && c.update.messages[0].Human? && c.update.messages[0].name == Some(AnswerWorker)
    ensures c.update.answers.Some? <==> extracted.Ok? && passes
    ensures c.update.answers.Some? ==> c.update.answers.value == [extracted.value]
    ensures c.update.answers.Some? ==>
      c.update.messages[0].content == AnswerHeading + extracted.value.answer + ExplanationLabel + extracted.value.explanation
    ensures c.update.answers.None? ==> c.update.messages[0].content == AnswerRetryNote
  {
    if extracted.Ok? && passes then
      var a := extracted.value;
      Command(Supervisor, Update([Human(AnswerHeading + a.answer + ExplanationLabel + a.explanation, Some(AnswerWorker))],
                                 Some(QuestionsUpdate(AddTag, questions)), Some([a]), None))
    else
      Command(Supervisor, Update([Human(AnswerRetryNote, Some(AnswerWorker))], Some(QuestionsUpdate(AddTag, questions)), None, None))
  }

  /** The answer generator's reply when every question already has an answer: re-add the questions, nothing else. */
  function OutOfRangeCommand(questions: seq<string>): Command {
    Command(Supervisor, Update([], Some(QuestionsUpdate(AddTag, questions)), None, None))
  }

  /** Either update the answer generator returns leaves the questions exactly as they were. */
  lemma AnswerCommandKeepsQuestions(questions: seq<string>, extracted: Result<AnswerRecord, Error>, passes: bool)
    ensures QuestionsAfter(questions, AnswerCommand(questions, extracted, passes).update) == questions
    ensures QuestionsAfter(questions, OutOfRangeCommand(questions).update) == questions
  {
    UpdateQuestionsAddSelf(questions);
  }

  /** `call_answer_generator`. The rebuilt two-entry log is the subgraph's input only: the team's log is not touched. */
  method CallAnswerGenerator(env: Env, st: State) returns (r: Result<Command, Error>)
    modifies env
    ensures |st.answers| >= |st.questions| ==>
      r == Ok(OutOfRangeCommand(st.questions)) && env.calls == old(env.calls) && env.delays == old(env.delays)
    ensures |st.answers| < |st.questions| && |st.messages| == 0 ==> r == Err(IndexError)
    ensures |st.answers| < |st.questions| && |st.messages| > 0 ==>
      var run := RefineFrom(env.oracle, Answer, AnswerLogCap, old(env.calls), old(env.delays),
                            AnswerInput(st.messages[0], st.questions[|st.answers|]));
      && env.calls == run.calls && env.delays == run.delays
      && (run.result.Err? ==> r == Err(run.result.error))
      && (run.result.Ok? ==>
            var extracted := ExtractAnswer(run.result.value);
            r == Ok(AnswerCommand(st.questions, extracted, extracted.Ok? && PassesGuard(extracted.value.answer, extracted.value.explanation))))
  {
    if |st.answers| >= |st.questions| {
      return Ok(OutOfRangeCommand(st.questions));
    }
    var question := st.questions[|st.answers|];
    if |st.messages| == 0 {
      return Err(IndexError);
    }
    var response, _ := RunRefinement(env, AnswerInput(st.messages[0], question), Answer, AnswerLogCap);
    if response.Err? {
      return Err(response.error);
    }
    var extracted := ExtractAnswer(response.value);
    var passes := false;
    if extracted.Ok? {
      passes := CheckAnswerExplanation(extracted.value.answer, extracted.value.explanation);
    }
    return Ok(AnswerCommand(st.questions, extracted, passes));
  }

  /** The model-call count and the sleeps recorded when a subgraph run starts. */
  type Start = (nat, seq<real>)

  /**
   * `a` answers `question`: the refinement subgraph, run by the oracle from `start` on the
   * context and that question, ended with the log `run`, from which `a` is extracted, and `a`
   * passed the guard.
   */
  ghost predicate AnsweredBy(o: Oracle, start: Start, run: seq<Message>, context: Message, question: string, a: AnswerRecord) {
    && RefineFrom(o, Answer, AnswerLogCap, start.0, start.1, AnswerInput(context, question)).result == Ok(run)
    && AnswerInput(context, question) < run
    && ExtractAnswer(run) == Ok(a)
    && PassesGuard(a.answer, a.explanation)
  }

  /**
   * One answer generator run merged into the team's state: the questions stay as they are,
   * the log only grows, and an answer is appended only for the first unanswered question.
   */
  method AnswerRound(env: Env, st: State) returns (r: Result<(), Error>, ghost start: Start, ghost run: seq<Message>)
    requires |st.answers| < |st.questions|
    modifies env, st
    ensures start == (old(env.calls), old(env.delays))
    ensures st.questions == old(st.questions)
    ensures old(st.messages) <= st.messages
    ensures old(st.messages) == [] ==> st.messages == [] && st.answers == old(st.answers)
    ensures || st.answers == old(st.answers)
            || (&& |old(st.messages)| > 0
                && |st.answers| == |old(st.answers)| + 1 && st.answers[..|old(st.answers)|] == old(st.answers)
                && AnsweredBy(env.oracle, start, run, old(st.messages)[0], old(st.questions)[|old(st.answers)|], st.answers[|old(st.answers)|]))
  {
    ghost var calls0, delays0 := env.calls, env.delays;
    start := (calls0, delays0);
    var worker := CallAnswerGenerator(env, st);
    if worker.Err? {
      return worker.PropagateFailure(), start, [];
    }
    var input := AnswerInput(st.messages[0], st.questions[|st.answers|]);
    run := RefineFrom(env.oracle, Answer, AnswerLogCap, calls0, delays0, input).result.value;
    RefineFromEnds(env.oracle, Answer, AnswerLogCap, calls0, delays0, input);
    AnswerCommandKeepsQuestions(st.questions, ExtractAnswer(run), true);
    AnswerCommandKeepsQuestions(st.questions, ExtractAnswer(run), false);
    st.Apply(worker.value.update);
    return Ok(()), start, run;
  }

  /** A round that answers the next question extends the runs behind the answers by its own run. */
  lemma AnsweredSnoc(o: Oracle, context: Message, questions: seq<string>, answers: seq<AnswerRecord>, after: seq<AnswerRecord>,
                     starts: seq<Start>, runs: seq<seq<Message>>, start: Start, run: seq<Message>)
    requires |starts| == |runs| == |answers| < |questions|
    requires forall i :: 0 <= i < |answers| ==> AnsweredBy(o, starts[i], runs[i], context, questions[i], answers[i])
    requires |after| == |answers| + 1 && after[..|answers|] == answers
    requires AnsweredBy(o, start, run, context, questions[|answers|], after[|answers|])
    ensures forall i :: 0 <= i < |after| ==>
      AnsweredBy(o, (starts + [start])[i], (runs + [run])[i], context, questions[i], after[i])
  {
    forall i | 0 <= i < |after|
      ensures AnsweredBy(o, (starts + [start])[i], (runs + [run])[i], context, questions[i], after[i])
    {
      if i < |answers| {
        assert after[i] == answers[i];
      }
    }
  }

  /** The graph framework's limit on node executions in one graph run. */
  const StepLimit: nat := 50

  /**
   * The answer team's graph from its start node. `budget` is the number of node executions
   * the framework still allows. When the run ends well every question has an answer, the
   * i-th answer comes from a run on the i-th question, and the questions are unchanged.
   */
  method AnswerPhase(env: Env, st: State, budget: nat)
    returns (r: Result<(), Error>, ghost starts: seq<Start>, ghost runs: seq<seq<Message>>)
    modifies env, st
    requires |st.answers| == 0
    ensures st.questions == old(st.questions)
    ensures old(st.messages) <= st.messages
    ensures old(st.messages) == [] ==> st.messages == [] && st.answers == []
    ensures |st.answers| <= |st.questions| && |starts| == |runs| == |st.answers|
    ensures forall i :: 0 <= i < |st.answers| ==>
      |old(st.messages)| > 0 && AnsweredBy(env.oracle, starts[i], runs[i], old(st.messages)[0], st.questions[i], st.answers[i])
    ensures r.Ok? ==> |st.answers| == |st.questions|
  {
    var steps := 0;
    starts, runs := [], [];
    while true
      invariant steps <= budget
      invariant st.questions == old(st.questions)
      invariant old(st.messages) <= st.messages
      invariant old(st.messages) == [] ==> st.messages == [] && st.answers == []
      invariant |st.answers| <= |st.questions| && |starts| == |runs| == |st.answers|
      invariant forall i :: 0 <= i < |st.answers| ==>
        |old(st.messages)| > 0 && AnsweredBy(env.oracle, starts[i], runs[i], old(st.messages)[0], st.questions[i], st.answers[i])
      decreases budget - steps
    {
      if steps == budget {
        return Err(RecursionLimit), starts, runs;
      }
      steps := steps + 1;
      var route := AnswerRoute(st.questions, st.answers);
      st.Apply(route.update);
      if route.goto == End {
        return Ok(()), starts, runs;
      }
      if steps == budget {
        return Err(RecursionLimit), starts, runs;
      }
      steps := steps + 1;
      ghost var answers0, messages0 := st.answers, st.messages;
      var round, start, run := AnswerRound(env, st);
      if st.answers != answers0 {
        AnsweredSnoc(env.oracle, old(st.messages)[0], st.questions, answers0, st.answers, starts, runs, start, run);
        starts, runs := starts + [start], runs + [run];
      }
      if round.Err? {
        return round, starts, runs;
      }
    }
  }
}
