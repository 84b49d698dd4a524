/**
 * The question team (`QuestionSupervisor`): a model-routed loop over three workers that
 * generate the first question, generate a further question, or prune the list. Each
 * worker runs a refinement subgraph on the team's log, picks the result out of the
 * subgraph's log, and answers with a one-message note and a questions update.
 */
module QuestionTeam {
  import opened Base
  import opened Messages
  import opened Memory
  import opened Text
  import opened AgentUtils
  import opened Reflection

  const Supervisor := "supervisor"
  const FirstGenerator := "first_question_generator"
  const NextGenerator := "next_question_generator"
  const Checker := "questions_checker"

  const QuestionKey := "question"
  const RemoveKey := "questions_to_remove"
  const ReflectionKey := "reflection"

  const NextHeader := "Generate the next question.\nHere is the current list of questions:\n"
  const CheckHeader := "Check the current list of questions.\nHere is the current list of questions:\n"
  const RemovedHeader := "Here are the questions removed:\n"
  const BulletMark := "- "
  const NoEditNote := "There is no need to edit the current list of questions."
  const FirstNote := "[Generated the first question]\n\nHere is the first question: "
  const NextNote := "[Generated the next question]\n\nHere is the next question: "
  const FirstRetryNote := "First question not generated. PLEASE TRY AGAIN."
  const NextRetryNote := "Next question not generated. PLEASE TRY AGAIN."
  const CheckedHeading := "[Checked questions]\n\n"
  const ReflectionLabel := "\n\nReflection: "
  const RecommendationLabel := "\n\nRecommendation: "

  // ---------------------------------------------------------------------------------------
  // Lists of questions as text

  /** One `"- {question}\n"` line per item, in order. */
  function Bullets(items: seq<string>): string
    decreases |items|
  {
    if |items| == 0 then "" else BulletMark + items[0] + "\n" + Bullets(items[1..])
  }

  lemma {:induction false} BulletsSnoc(items: seq<string>, q: string)
    ensures Bullets(items + [q]) == Bullets(items) + (BulletMark + q + "\n")
    decreases |items|
  {
    if |items| == 0 {
      assert items + [q] == [q];
      assert [q][1..] == [];
    } else {
      assert (items + [q])[1..] == items[1..] + [q];
      BulletsSnoc(items[1..], q);
    }
  }

  /** The bullet lines of `items`, without their line ends. */
  function BulletLines(items: seq<string>): (lines: seq<string>)
    ensures |lines| == |items|
    ensures forall k :: 0 <= k < |items| ==> lines[k] == BulletMark + items[k]
  {
    seq(|items|, k requires 0 <= k < |items| => BulletMark + items[k])
  }

  /** A bullet line holds no line end when its question holds none. */
  lemma BulletLineUnbroken(q: string)
    requires '\n' !in q
    ensures '\n' !in BulletMark + q
  {
    var p := BulletMark + q;
    forall i | 0 <= i < |p|
      ensures p[i] != '\n'
    {
      if i >= |BulletMark| {
        assert p[i] == q[i - |BulletMark|];
      }
    }
  }

  /** Questions without line breaks come back, one per line, when the bullet text is split on line ends. */
  lemma {:induction false} BulletsSplit(items: seq<string>)
    requires forall k :: 0 <= k < |items| ==> '\n' !in items[k]
    ensures Split(Bullets(items), '\n') == BulletLines(items) + [""]
    decreases |items|
  {
    if |items| > 0 {
      var p := BulletMark + items[0];
      var rest := Bullets(items[1..]);
      BulletsSplit(items[1..]);
      BulletLineUnbroken(items[0]);
      assert Bullets(items) == p + (['\n'] + rest);
      SplitLine(p, rest, '\n');
      assert BulletLines(items) == [p] + BulletLines(items[1..]);
    }
  }

  /** Builds `header` followed by one bullet line per item, then strips the text, as the workers do. */
  method ListText(header: string, items: seq<string>) returns (text: string)
    ensures text == Strip(header + Bullets(items))
  {
    text := header;
    for i := 0 to |items|
      invariant text == header + Bullets(items[..i])
    {
      BulletsSnoc(items[..i], items[i]);
      assert items[..i + 1] == items[..i] + [items[i]];
      text := text + (BulletMark + items[i] + "\n");
    }
    assert items[..|items|] == items;
    text := Strip(text);
  }

  // ---------------------------------------------------------------------------------------
  // Reading the subgraph's result

  /** The generated or revised question, picked out of a question subgraph's log. */
  function ExtractQuestion(response: seq<Message>): Result<string, Error> {
    var message :- ExtractMessage(response, SchemaName(QuestionRevision));
    FirstCallStr(message, QuestionKey)
  }

  /**
   * A log ending in a generate reply whose tool call is not a revision, right after a
   * revision reply that conforms to its schema, yields the revised question.
   */
  lemma ConformingRevisionYieldsQuestion(response: seq<Message>)
    requires |response| >= 2
    requires var last := response[|response| - 1];
      last.AI? && |last.toolCalls| > 0 && last.toolCalls[0].name != SchemaName(QuestionRevision)
    requires var prev := response[|response| - 2];
      prev.AI? && |prev.toolCalls| > 0 && Conforms(QuestionRevision, prev.toolCalls[0])
    ensures ExtractQuestion(response) == Ok(response[|response| - 2].toolCalls[0].args[QuestionKey].s)
  {
    var call := response[|response| - 2].toolCalls[0];
    var fields := Fields(QuestionRevision);
    assert fields[0] == (QuestionKey, Text);
    assert QuestionKey in call.args;
  }

  /**
   * When the subgraph stops at its first generate step on an input ending in a message
   * that is not a model reply, and the reply is not named as a revision, no question can
   * be read: the entry before the reply is never a model reply.
   */
  lemma FirstStopYieldsNoQuestion(o: Oracle, task: Task, cap: nat, calls: nat, delays: seq<real>, input: seq<Message>)
    requires |input| > 0 && !input[|input| - 1].AI?
    ensures var run := RefineFrom(o, task, cap, calls, delays, input);
      run.result.Ok? && run.generations == 1 && !EndsWithRevision(run.result.value, SchemaName(QuestionRevision))
      ==> ExtractQuestion(run.result.value).Err?
  {
    FirstStopExtractionFails(o, task, cap, calls, delays, input, SchemaName(QuestionRevision));
  }

  // ---------------------------------------------------------------------------------------
  // The workers' commands

  predicate IsGenerator(task: Task) {
    task == FirstQuestion || task == NextQuestion
  }

  function GeneratorName(task: Task): string
    requires IsGenerator(task)
  {
    if task == FirstQuestion then FirstGenerator else NextGenerator
  }

  /**
   * What a generator node returns after its subgraph produced `response`: the extracted
   * question is added and announced; when extraction fails nothing is added and the
   * note asks to try again.
   */
  function GeneratorCommand(task: Task, response: seq<Message>): (c: Command)
    requires IsGenerator(task)
    ensures c.goto == Supervisor && c.update.answers.None? && c.update.next.None?
    ensures |c.update.messages| == 1 && c.update.messages[0].Human?
    ensures c.update.messages[0].name == Some(GeneratorName(task))
    ensures c.update.questions.Some? && c.update.questions.value.tag == AddTag
    ensures ExtractQuestion(response).Ok? ==>
      && c.update.questions.value.batch == [ExtractQuestion(response).value]
      && c.update.messages[0].content
         == (if task == FirstQuestion then FirstNote else NextNote) + ExtractQuestion(response).value
    ensures ExtractQuestion(response).Err? ==>
      && c.update.questions.value.batch == []
      && c.update.messages[0].content == (if task == FirstQuestion then FirstRetryNote else NextRetryNote)
  {
    var name := GeneratorName(task);
    match ExtractQuestion(response)
    case Ok(q) =>
      var note := if task == FirstQuestion then FirstNote else NextNote;
      Command(Supervisor, Update([Human(note + q, Some(name))], Some(QuestionsUpdate(AddTag, [q])), None, None))
    case Err(_) =>
      var note := if task == FirstQuestion then FirstRetryNote else NextRetryNote;
      Command(Supervisor, Update([Human(note, Some(name))], Some(QuestionsUpdate(AddTag, [])), None, None))
  }

  /** A generator adds at most one question, and only one not already in the list. */
  lemma GeneratorAddsAtMostOne(task: Task, response: seq<Message>, questions: seq<string>)
    requires IsGenerator(task)
    ensures var after := QuestionsAfter(questions, GeneratorCommand(task, response).update);
      && questions <= after && |after| <= |questions| + 1
      && (ExtractQuestion(response).Ok? ==> after == questions + (if ExtractQuestion(response).value in questions then [] else [ExtractQuestion(response).value]))
      && (ExtractQuestion(response).Err? ==> after == questions)
  {
    var c := GeneratorCommand(task, response);
    UpdateQuestionsAdd(questions, AddTag, c.update.questions.value.batch);
    var after := QuestionsAfter(questions, c.update);
    if ExtractQuestion(response).Ok? {
      var q := ExtractQuestion(response).value;
      assert Keep([q], questions) == (if q in questions then [] else [q]) by {
        assert [q][1..] == [];
      }
    } else {
      assert after == questions + [];
    }
  }

  /** The checker's findings: the removal batch and the note it reports. */
  datatype CheckResult = CheckResult(removal: seq<string>, note: string)

  /** `"[Checked questions]\n\n{removed}\n\nReflection: {reflection}"`, followed by the recommendation when there is one. */
  function CheckNote(removed: string, reflection: string, recommendation: string): string {
    CheckedHeading + removed + ReflectionLabel + reflection
      + (if |recommendation| > 0 then RecommendationLabel + recommendation else "")
  }

  /**
   * What the checker makes of its subgraph's log. A failure before the removal list is read
   * leaves an empty batch; a failure after it keeps the batch read so far; either failure
   * replaces the note with the no-edit note. A "FINISH" recommendation is not reported.
   */
  function CheckOutcome(response: seq<Message>): (c: CheckResult)
    ensures |c.removal| > 0 ==> ExtractMessage(response, SchemaName(CheckQuestionsRevision)).Ok?
  {
    match ExtractMessage(response, SchemaName(CheckQuestionsRevision))
    case Err(_) => CheckResult([], NoEditNote)
    case Ok(message) =>
      match FirstCall(message)
      case Err(_) => CheckResult([], NoEditNote)
      case Ok(call) =>
        match ListArg(call, RemoveKey)
        case Err(_) => CheckResult([], NoEditNote)
        case Ok(removal) =>
          var removed := if |removal| > 0 then Strip(RemovedHeader + Bullets(removal)) else NoEditNote;
          match (StrArg(call, ReflectionKey), StrArg(call, RecommendationKey))
          case (Ok(reflection), Ok(recommendation)) =>
            CheckResult(removal, CheckNote(removed, reflection, if recommendation == FinishChoice then "" else recommendation))
          case _ => CheckResult(removal, NoEditNote)
  }

  /** What the checker node returns: its note, and the batch under the "remove" tag. */
  function CheckCommand(response: seq<Message>): (c: Command)
    ensures c.goto == Supervisor && c.update.answers.None? && c.update.next.None?
    ensures c.update.messages == [Human(CheckOutcome(response).note, Some(Checker))]
    ensures c.update.questions == Some(QuestionsUpdate(RemoveTag, CheckOutcome(response).removal))
  {
    var outcome := CheckOutcome(response);
    Command(Supervisor, Update([Human(outcome.note, Some(Checker))], Some(QuestionsUpdate(RemoveTag, outcome.removal)), None, None))
  }

  /**
   * With a complete revision call, the removal batch is the one the call names, and the note
   * carries the removal text, the reflection and the recommendation, unless it is "FINISH".
   */
  lemma CheckReadsRevision(response: seq<Message>, removal: seq<string>, reflection: string, recommendation: string)
    requires |response| >= 1
    requires var last := response[|response| - 1];
      && last.AI? && |last.toolCalls| > 0 && last.toolCalls[0].name == SchemaName(CheckQuestionsRevision)
    requires var args := response[|response| - 1].toolCalls[0].args;
      && RemoveKey in args && args[RemoveKey] == Strs(removal)
      && ReflectionKey in args && args[ReflectionKey] == Str(reflection)
      && RecommendationKey in args && args[RecommendationKey] == Str(recommendation)
    ensures CheckOutcome(response).removal == removal
    ensures CheckOutcome(response).note
         == CheckNote(if |removal| > 0 then Strip(RemovedHeader + Bullets(removal)) else NoEditNote, reflection,
                      if recommendation == FinishChoice then "" else recommendation)
  {
  }

  /**
   * A failure before the list to remove is read (no revision message, no tool call, no list
   * under "questions_to_remove") removes nothing and reports that no edits were made.
   */
  lemma CheckFailsBeforeList(response: seq<Message>)
    requires var extracted := ExtractMessage(response, SchemaName(CheckQuestionsRevision));
      || extracted.Err?
      || FirstCall(extracted.value).Err?
      || ListArg(FirstCall(extracted.value).value, RemoveKey).Err?
    ensures CheckOutcome(response) == CheckResult([], NoEditNote)
  {
  }

  /**
   * A failure after the list is read (no reflection or no recommendation) still removes the
   * list read, but reports that no edits were made.
   */
  lemma CheckFailsAfterList(response: seq<Message>, call: ToolCall, removal: seq<string>)
    requires var extracted := ExtractMessage(response, SchemaName(CheckQuestionsRevision));
      && extracted.Ok? && FirstCall(extracted.value) == Ok(call) && ListArg(call, RemoveKey) == Ok(removal)
    requires StrArg(call, ReflectionKey).Err? || StrArg(call, RecommendationKey).Err?
    ensures CheckOutcome(response) == CheckResult(removal, NoEditNote)
  {
  }

  /** On an empty list the "remove" update falls through to adding: whatever the checker names becomes the list. */
  lemma CheckOnEmptyListAdds(response: seq<Message>)
    ensures QuestionsAfter([], CheckCommand(response).update) == CheckOutcome(response).removal
  {
    UpdateQuestionsRemoveOnEmpty(CheckOutcome(response).removal);
  }

  /** On a non-empty list the checker only ever removes: the result is a subsequence of the list. */
  lemma CheckOnlyRemoves(response: seq<Message>, questions: seq<string>)
    requires |questions| > 0
    ensures var after := QuestionsAfter(questions, CheckCommand(response).update);
      && IsSubseq(after, questions)
      && (forall q :: q in after <==> q in questions && q !in CheckOutcome(response).removal)
  {
    UpdateQuestionsRemove(questions, CheckOutcome(response).removal);
  }

  // ---------------------------------------------------------------------------------------
  // The worker nodes

  /** `call_first_generator`: the subgraph runs on the team's log as it is. */
  method CallFirstGenerator(env: Env, st: State) returns (r: Result<Command, Error>)
    modifies env
    ensures var run := RefineFrom(env.oracle, FirstQuestion, QuestionLogCap, old(env.calls), old(env.delays), st.messages);
      && env.calls == run.calls && env.delays == run.delays
      && (run.result.Ok? ==> r == Ok(GeneratorCommand(FirstQuestion, run.result.value)))
      && (run.result.Err? ==> r == Err(run.result.error))
  {
    var response, _ := RunRefinement(env, st.messages, FirstQuestion, QuestionLogCap);
    if response.Err? {
      return Err(response.error);
    }
    return Ok(GeneratorCommand(FirstQuestion, response.value));
  }

  /** `call_next_generator`: the current list is appended to the team's log in place, then the subgraph runs on it. */
  method CallNextGenerator(env: Env, st: State) returns (r: Result<Command, Error>)
    modifies env, st`messages
    ensures st.messages == old(st.messages) + [Human(Strip(NextHeader + Bullets(st.questions)), None)]
    ensures var run := RefineFrom(env.oracle, NextQuestion, QuestionLogCap, old(env.calls), old(env.delays), st.messages);
      && env.calls == run.calls && env.delays == run.delays
      && (run.result.Ok? ==> r == Ok(GeneratorCommand(NextQuestion, run.result.value)))
      && (run.result.Err? ==> r == Err(run.result.error))
  {
    var list := ListText(NextHeader, st.questions);
    st.messages := st.messages + [Human(list, None)];
    var response, _ := RunRefinement(env, st.messages, NextQuestion, QuestionLogCap);
    if response.Err? {
      return Err(response.error);
    }
    return Ok(GeneratorCommand(NextQuestion, response.value));
  }

  /** The part of `call_check_questions` after the subgraph: reading the removal list and building the note. */
  method ReadFindings(response: seq<Message>) returns (outcome: CheckResult)
    ensures outcome == CheckOutcome(response)
  {
    var removal: seq<string> := [];
    var note := NoEditNote;
    var message := ExtractMessage(response, SchemaName(CheckQuestionsRevision));
    if message.Ok? && FirstCall(message.value).Ok? {
      var call := FirstCall(message.value).value;
      var listed := ListArg(call, RemoveKey);
      if listed.Ok? {
        removal := listed.value;
        var removed := NoEditNote;
        if |removal| > 0 {
          removed := ListText(RemovedHeader, removal);
        }
        var reflection, recommendation := StrArg(call, ReflectionKey), StrArg(call, RecommendationKey);
        if reflection.Ok? && recommendation.Ok? {
          var shown := recommendation.value;
          if shown == FinishChoice {
            shown := "";
          }
          note := CheckNote(removed, reflection.value, shown);
        }
      }
    }
    return CheckResult(removal, note);
  }

  /** `call_check_questions`: like the next generator, with the checker's header and findings. */
  method CallCheckQuestions(env: Env, st: State) returns (r: Result<Command, Error>)
    modifies env, st`messages
    ensures st.messages == old(st.messages) + [Human(Strip(CheckHeader + Bullets(st.questions)), None)]
    ensures var run := RefineFrom(env.oracle, CheckQuestions, QuestionLogCap, old(env.calls), old(env.delays), st.messages);
      && env.calls == run.calls && env.delays == run.delays
      && (run.result.Ok? ==> r == Ok(CheckCommand(run.result.value)))
      && (run.result.Err? ==> r == Err(run.result.error))
  {
    var list := ListText(CheckHeader, st.questions);
    st.messages := st.messages + [Human(list, None)];
    var response, _ := RunRefinement(env, st.messages, CheckQuestions, QuestionLogCap);
    if response.Err? {
      return Err(response.error);
    }
    var outcome := ReadFindings(response.value);
    return Ok(Command(Supervisor, Update([Human(outcome.note, Some(Checker))], Some(QuestionsUpdate(RemoveTag, outcome.removal)), None, None)));
  }

  /** The generator nodes of the team's graph. */
  predicate IsGeneratorNode(name: string) {
    name == FirstGenerator || name == NextGenerator
  }

  /** The worker nodes of the team's graph. */
  predicate IsWorker(name: string) {
    IsGeneratorNode(name) || name == Checker
  }

  /** The Command the worker node `name` returns once its subgraph produced `response`. */
  function WorkerCommand(name: string, response: seq<Message>): (c: Command)
    ensures c.goto == Supervisor && c.update.answers.None? && c.update.questions.Some?
  {
    if name == FirstGenerator then GeneratorCommand(FirstQuestion, response)
    else if name == NextGenerator then GeneratorCommand(NextQuestion, response)
    else CheckCommand(response)
  }

  /** The refinement task the worker node `name` runs. */
  function WorkerTask(name: string): Task {
    if name == FirstGenerator then FirstQuestion
    else if name == NextGenerator then NextQuestion
    else CheckQuestions
  }

  /**
   * The log the worker node `name` hands its subgraph: the first generator uses the team's log
   * as it is; the next generator and the checker append the current list, under their header,
   * in place first.
   */
  function WorkerInput(name: string, log: seq<Message>, questions: seq<string>): seq<Message> {
    if name == FirstGenerator then log
    else log + [Human(Strip((if name == NextGenerator then NextHeader else CheckHeader) + Bullets(questions)), None)]
  }

  /**
   * Runs the worker node `goto` names; a name that is not a worker node is an error. The
   * subgraph runs on the worker's input log, which becomes the team's log; on success the
   * Command is the worker's Command for the subgraph's final log `response`.
   */
  method CallWorker(env: Env, st: State, goto: string) returns (r: Result<Command, Error>, ghost response: seq<Message>)
    modifies env, st`messages
    ensures old(st.messages) <= st.messages
    ensures r.Ok? ==> |r.value.update.messages| == 1 && r.value.update.answers.None?
    ensures r.Ok? ==> IsWorker(goto) && r.value == WorkerCommand(goto, response)
    ensures !IsWorker(goto) ==> r == Err(UnknownNode(goto))
    ensures IsWorker(goto) ==>
      var input := WorkerInput(goto, old(st.messages), st.questions);
      var run := RefineFrom(env.oracle, WorkerTask(goto), QuestionLogCap, old(env.calls), old(env.delays), input);
      && st.messages == input && env.calls == run.calls && env.delays == run.delays
      && (run.result.Ok? ==> r == Ok(WorkerCommand(goto, run.result.value)) && response == run.result.value)
      && (run.result.Err? ==> r == Err(run.result.error))
  {
    ghost var calls0, delays0 := env.calls, env.delays;
    response := [];
    if goto == FirstGenerator {
      r := CallFirstGenerator(env, st);
      if r.Ok? {
        response := RefineFrom(env.oracle, FirstQuestion, QuestionLogCap, calls0, delays0, st.messages).result.value;
      }
    } else if goto == NextGenerator {
      r := CallNextGenerator(env, st);
      if r.Ok? {
        response := RefineFrom(env.oracle, NextQuestion, QuestionLogCap, calls0, delays0, st.messages).result.value;
      }
    } else if goto == Checker {
      r := CallCheckQuestions(env, st);
      if r.Ok? {
        response := RefineFrom(env.oracle, CheckQuestions, QuestionLogCap, calls0, delays0, st.messages).result.value;
      }
    } else {
      r := Err(UnknownNode(goto));
    }
  }

  // ---------------------------------------------------------------------------------------
  // The team's graph

  /** One worker node execution: the node and the final log of its subgraph. */
  datatype WorkerStep = WorkerStep(worker: string, response: seq<Message>)

  /** The questions update a worker step's Command carries. */
  function WorkerUpdate(step: WorkerStep): (u: QuestionsUpdate)
    ensures IsGeneratorNode(step.worker) ==> u.tag == AddTag && |u.batch| <= 1
    ensures !IsGeneratorNode(step.worker) ==> u == QuestionsUpdate(RemoveTag, CheckOutcome(step.response).removal)
  {
    WorkerCommand(step.worker, step.response).update.questions.value
  }

  /** The questions updates of the worker steps, in order. */
  function WorkerUpdates(steps: seq<WorkerStep>): seq<QuestionsUpdate> {
    seq(|steps|, i requires 0 <= i < |steps| => WorkerUpdate(steps[i]))
  }

  /** One more worker step merges its update into the list the earlier steps left. */
  lemma WorkerStepsSnoc(questions: seq<string>, steps: seq<WorkerStep>, step: WorkerStep)
    ensures QuestionsFold(questions, WorkerUpdates(steps + [step]))
         == UpdateQuestions(QuestionsFold(questions, WorkerUpdates(steps)), WorkerUpdate(step).tag, WorkerUpdate(step).batch)
  {
    assert WorkerUpdates(steps + [step]) == WorkerUpdates(steps) + [WorkerUpdate(step)];
    QuestionsFoldSnoc(questions, WorkerUpdates(steps), WorkerUpdate(step));
  }

  /**
   * The list stays duplicate-free unless the checker runs on an empty list and names a batch
   * with a duplicate: a generator adds at most one question, and a check on a non-empty list
   * only removes.
   */
  lemma WorkerStepsNoDup(questions: seq<string>, steps: seq<WorkerStep>)
    requires NoDup(questions)
    requires forall i ::
      (0 <= i < |steps| && !IsGeneratorNode(steps[i].worker) && QuestionsFold(questions, WorkerUpdates(steps)[..i]) == []) ==>
        NoDup(CheckOutcome(steps[i].response).removal)
    ensures NoDup(QuestionsFold(questions, WorkerUpdates(steps)))
  {
    var us := WorkerUpdates(steps);
    forall i | 0 <= i < |us|
      ensures NoDup(us[i].batch) || (us[i].tag == RemoveTag && QuestionsFold(questions, us[..i]) != [])
    {
      assert us[i] == WorkerUpdate(steps[i]);
    }
    QuestionsFoldNoDup(questions, us);
  }

  /** Without a checker step the list only grows, by at most one question per generator step. */
  lemma WorkerStepsGenerate(questions: seq<string>, steps: seq<WorkerStep>)
    requires forall i :: 0 <= i < |steps| ==> IsGeneratorNode(steps[i].worker)
    ensures var after := QuestionsFold(questions, WorkerUpdates(steps));
      questions <= after && |after| <= |questions| + |steps|
  {
    var us := WorkerUpdates(steps);
    forall i | 0 <= i < |us|
      ensures us[i].tag == AddTag && |us[i].batch| <= 1
    {
      assert us[i] == WorkerUpdate(steps[i]);
    }
    QuestionsFoldAdds(questions, us);
  }

  /** What one execution of a worker node yields: its step or error, and the state after it. */
  datatype WorkerTrace = WorkerTrace(result: Result<WorkerStep, Error>, calls: nat, delays: seq<real>, log: seq<Message>, questions: seq<string>)

  /**
   * The worker node `name` run on the team's log and list: its subgraph runs on the worker's
   * input log; on success the worker's Command is merged, on failure the input log stays.
   */
  function WorkerFrom(o: Oracle, name: string, calls: nat, delays: seq<real>, log: seq<Message>, questions: seq<string>): (w: WorkerTrace)
    ensures log <= w.log
    ensures w.result.Ok? ==>
      && w.result.value.worker == name
      && w.questions == UpdateQuestions(questions, WorkerUpdate(w.result.value).tag, WorkerUpdate(w.result.value).batch)
    ensures w.result.Err? ==> w.questions == questions
  {
    var input := WorkerInput(name, log, questions);
    var run := RefineFrom(o, WorkerTask(name), QuestionLogCap, calls, delays, input);
    if run.result.Err? then WorkerTrace(Err(run.result.error), run.calls, run.delays, input, questions)
    else
      var u := WorkerCommand(name, run.result.value).update;
      WorkerTrace(Ok(WorkerStep(name, run.result.value)), run.calls, run.delays, input + u.messages, QuestionsAfter(questions, u))
  }

  /** What the question team's graph yields: its result, its final state and the worker steps it ran. */
  datatype PhaseTrace = PhaseTrace(
    result: Result<(), Error>, calls: nat, delays: seq<real>, log: seq<Message>, questions: seq<string>, steps: seq<WorkerStep>)

  /**
   * The question team's graph after `used` of `budget` node executions, `done` holding the
   * worker steps so far: route; end, route again, or run the chosen worker and route again.
   */
  function PhaseFrom(o: Oracle, budget: nat, used: nat, calls: nat, delays: seq<real>, log: seq<Message>,
                     questions: seq<string>, done: seq<WorkerStep>): PhaseTrace
    decreases budget - used
  {
    if used >= budget then PhaseTrace(Err(RecursionLimit), calls, delays, log, questions, done)
    else
      var t := RouteSpec(o, questions, calls, delays, log);
      if t.result.Err? then PhaseTrace(Err(t.result.error), t.calls, t.delays, t.log, questions, done)
      else
        var goto := t.result.value;
        if goto == End then PhaseTrace(Ok(()), t.calls, t.delays, t.log, questions, done)
        else if goto == Supervisor then PhaseFrom(o, budget, used + 1, t.calls, t.delays, t.log, questions, done)
        else if !IsWorker(goto) then PhaseTrace(Err(UnknownNode(goto)), t.calls, t.delays, t.log, questions, done)
        else if used + 1 >= budget then PhaseTrace(Err(RecursionLimit), t.calls, t.delays, t.log, questions, done)
        else
          var w := WorkerFrom(o, goto, t.calls, t.delays, t.log, questions);
          if w.result.Err? then PhaseTrace(Err(w.result.error), w.calls, w.delays, w.log, w.questions, done)
          else PhaseFrom(o, budget, used + 2, w.calls, w.delays, w.log, w.questions, done + [w.result.value])
  }

  /**
   * From any point of the graph, the list handed on is the list the steps so far and the
   * worker steps still to run fold to, every step is a worker node's, and the log only grows.
   */
  lemma {:induction false} PhaseFromFold(o: Oracle, budget: nat, used: nat, calls: nat, delays: seq<real>, log: seq<Message>,
                                         questions: seq<string>, done: seq<WorkerStep>, start: seq<string>)
    requires questions == QuestionsFold(start, WorkerUpdates(done))
    requires forall i :: 0 <= i < |done| ==> IsWorker(done[i].worker)
    ensures var p := PhaseFrom(o, budget, used, calls, delays, log, questions, done);
      && done <= p.steps && log <= p.log
      && (forall i :: 0 <= i < |p.steps| ==> IsWorker(p.steps[i].worker))
      && p.questions == QuestionsFold(start, WorkerUpdates(p.steps))
    decreases budget - used, 1
  {
    if used < budget {
      var t := RouteSpec(o, questions, calls, delays, log);
      RouteShape(o, questions, calls, delays, log);
      if t.result.Ok? && t.result.value != End {
        var goto := t.result.value;
        if goto == Supervisor {
          PhaseFromFold(o, budget, used + 1, t.calls, t.delays, t.log, questions, done, start);
        } else if IsWorker(goto) && used + 1 < budget {
          PhaseFromFoldWorker(o, budget, used, goto, t.calls, t.delays, t.log, questions, done, start);
        }
      }
    }
  }

  /** `PhaseFromFold` for the graph after the routing node chose the worker `goto`. */
  lemma {:induction false} PhaseFromFoldWorker(o: Oracle, budget: nat, used: nat, goto: string, calls: nat, delays: seq<real>,
                                               log: seq<Message>, questions: seq<string>, done: seq<WorkerStep>, start: seq<string>)
    requires used + 1 < budget && IsWorker(goto)
    requires questions == QuestionsFold(start, WorkerUpdates(done))
    requires forall i :: 0 <= i < |done| ==> IsWorker(done[i].worker)
    ensures var w := WorkerFrom(o, goto, calls, delays, log, questions);
      var p := if w.result.Err? then PhaseTrace(Err(w.result.error), w.calls, w.delays, w.log, w.questions, done)
               else PhaseFrom(o, budget, used + 2, w.calls, w.delays, w.log, w.questions, done + [w.result.value]);
      && done <= p.steps && log <= p.log
      && (forall i :: 0 <= i < |p.steps| ==> IsWorker(p.steps[i].worker))
      && p.questions == QuestionsFold(start, WorkerUpdates(p.steps))
    decreases budget - used, 0
  {
    var w := WorkerFrom(o, goto, calls, delays, log, questions);
    if w.result.Ok? {
      WorkerStepsSnoc(start, done, w.result.value);
      PhaseFromFold(o, budget, used + 2, w.calls, w.delays, w.log, w.questions, done + [w.result.value], start);
    }
  }

  /** The question team's list is its old list with the updates of the worker steps it ran merged in. */
  lemma PhaseQuestions(o: Oracle, budget: nat, calls: nat, delays: seq<real>, log: seq<Message>, questions: seq<string>)
    ensures var p := PhaseFrom(o, budget, 0, calls, delays, log, questions, []);
      && log <= p.log
      && (forall i :: 0 <= i < |p.steps| ==> IsWorker(p.steps[i].worker))
      && p.questions == QuestionsFold(questions, WorkerUpdates(p.steps))
  {
    assert WorkerUpdates([]) == [];
    PhaseFromFold(o, budget, 0, calls, delays, log, questions, [], questions);
  }

  /**
   * The question team hands on a duplicate-free list when it starts from one, unless the
   * checker runs on an empty list and names a batch with a duplicate.
   */
  lemma PhaseNoDup(o: Oracle, budget: nat, calls: nat, delays: seq<real>, log: seq<Message>, questions: seq<string>)
    requires NoDup(questions)
    requires var steps := PhaseFrom(o, budget, 0, calls, delays, log, questions, []).steps;
      forall i ::
        (0 <= i < |steps| && !IsGeneratorNode(steps[i].worker) && QuestionsFold(questions, WorkerUpdates(steps)[..i]) == []) ==>
          NoDup(CheckOutcome(steps[i].response).removal)
    ensures NoDup(PhaseFrom(o, budget, 0, calls, delays, log, questions, []).questions)
  {
    var p := PhaseFrom(o, budget, 0, calls, delays, log, questions, []);
    PhaseQuestions(o, budget, calls, delays, log, questions);
    WorkerStepsNoDup(questions, p.steps);
  }

  /** A question team whose steps are all generator steps keeps its list as a prefix and adds at most one question per step. */
  lemma PhaseGenerate(o: Oracle, budget: nat, calls: nat, delays: seq<real>, log: seq<Message>, questions: seq<string>)
    requires var steps := PhaseFrom(o, budget, 0, calls, delays, log, questions, []).steps;
      forall i :: 0 <= i < |steps| ==> IsGeneratorNode(steps[i].worker)
    ensures var p := PhaseFrom(o, budget, 0, calls, delays, log, questions, []);
      questions <= p.questions && |p.questions| <= |questions| + |p.steps|
  {
    var p := PhaseFrom(o, budget, 0, calls, delays, log, questions, []);
    PhaseQuestions(o, budget, calls, delays, log, questions);
    WorkerStepsGenerate(questions, p.steps);
  }

  /** The routing node's execution in the team's graph: the decision, merged into the state. */
  method RouteNode(env: Env, st: State) returns (r: Result<string, Error>)
    modifies env, st
    ensures var t := RouteSpec(env.oracle, old(st.questions), old(env.calls), old(env.delays), old(st.messages));
      r == t.result && st.messages == t.log && env.calls == t.calls && env.delays == t.delays
    ensures old(st.messages) <= st.messages
    ensures st.questions == old(st.questions) && st.answers == old(st.answers)
  {
    RouteShape(env.oracle, st.questions, env.calls, env.delays, st.messages);
    var route := SupervisorNode(env, st);
    if route.Err? {
      return Err(route.error);
    }
    st.Apply(route.value.update);
    return Ok(route.value.goto);
  }

  /** A worker node's execution in the team's graph: its Command merged into the state. */
  method WorkerNode(env: Env, st: State, goto: string) returns (r: Result<(), Error>, ghost response: seq<Message>)
    requires IsWorker(goto)
    modifies env, st
    ensures old(st.messages) <= st.messages && st.answers == old(st.answers)
    ensures r.Ok? ==> st.questions == UpdateQuestions(old(st.questions), WorkerUpdate(WorkerStep(goto, response)).tag,
                                                      WorkerUpdate(WorkerStep(goto, response)).batch)
    ensures r.Err? ==> st.questions == old(st.questions)
    ensures var w := WorkerFrom(env.oracle, goto, old(env.calls), old(env.delays), old(st.messages), old(st.questions));
      && st.messages == w.log && st.questions == w.questions && env.calls == w.calls && env.delays == w.delays
      && (w.result.Ok? ==> r == Ok(()) && response == w.result.value.response)
      && (w.result.Err? ==> r == Err(w.result.error))
  {
    var worker;
    worker, response := CallWorker(env, st, goto);
    if worker.Err? {
      return Err(worker.error), response;
    }
    st.Apply(worker.value.update);
    return Ok(()), response;
  }

  /**
   * The question team's graph from its start node: route, run the chosen worker, merge its
   * update, and route again, until the routing node chooses the end. A route back to the
   * supervisor runs the routing node again. `budget` is the number of node executions the
   * framework still allows. The question list handed on is the old list with the workers'
   * Commands merged in, in the order they ran.
   */
  method QuestionPhase(env: Env, st: State, budget: nat) returns (r: Result<(), Error>, ghost trace: seq<WorkerStep>)
    modifies env, st
    ensures old(st.messages) <= st.messages
    ensures st.answers == old(st.answers)
    ensures forall i :: 0 <= i < |trace| ==> IsWorker(trace[i].worker)
    ensures st.questions == QuestionsFold(old(st.questions), WorkerUpdates(trace))
    ensures var p := PhaseFrom(env.oracle, budget, 0, old(env.calls), old(env.delays), old(st.messages), old(st.questions), []);
      && r == p.result && trace == p.steps
      && st.messages == p.log && st.questions == p.questions && env.calls == p.calls && env.delays == p.delays
  {
    var steps := 0;
    trace := [];
    ghost var spec := PhaseFrom(env.oracle, budget, 0, env.calls, env.delays, st.messages, st.questions, []);
    while true
      invariant spec == PhaseFrom(env.oracle, budget, steps, env.calls, env.delays, st.messages, st.questions, trace)
      invariant steps <= budget
      invariant old(st.messages) <= st.messages
      invariant st.answers == old(st.answers)
      invariant forall i :: 0 <= i < |trace| ==> IsWorker(trace[i].worker)
      invariant st.questions == QuestionsFold(old(st.questions), WorkerUpdates(trace))
      decreases budget - steps
    {
      if steps == budget {
        return Err(RecursionLimit), trace;
      }
      steps := steps + 1;
      var route := RouteNode(env, st);
      if route.Err? {
        return Err(route.error), trace;
      }
      var goto := route.value;
      if goto == End {
        return Ok(()), trace;
      }
      if goto == Supervisor {
        continue;
      }
      if !IsWorker(goto) {
        return Err(UnknownNode(goto)), trace;
      }
      if steps == budget {
        return Err(RecursionLimit), trace;
      }
      steps := steps + 1;
      var worker, response := WorkerNode(env, st, goto);
      if worker.Err? {
        return Err(worker.error), trace;
      }
      WorkerStepsSnoc(old(st.questions), trace, WorkerStep(goto, response));
      trace := trace + [WorkerStep(goto, response)];
    }
  }
}
