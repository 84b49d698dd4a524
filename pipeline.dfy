/**
 * The batch pipeline (`main.py`): each input text is prepared into one context string,
 * the top-level graph runs the question team and then the answer team on it, and the
 * questions and answers are written to `output_{i}.json` unless that file already exists.
 */
module Pipeline {
  import opened Base
  import opened Messages
  import opened Memory
  import opened Text
  import opened AgentUtils
  import opened QuestionTeam
  import opened AnswerTeam
  import opened Prepare

  const ContextHeading := "### Context:\n\n"
  const OutputPrefix := "output_"
  const OutputSuffix := ".json"

  // ---------------------------------------------------------------------------------------
  // One example through the top-level graph

  /** The top-level graph's input message. */
  function ContextMessage(example: string): Message {
    Human(ContextHeading + Strip(example), None)
  }

  /**
   * `call_question_supervisor`: the question team runs on the top-level log; its first log
   * entry and its question list are returned, the list under the "add" tag.
   */
  method CallQuestionSupervisor(env: Env, st: State) returns (r: Result<Update, Error>, ghost trace: seq<WorkerStep>)
    modifies env
    ensures r.Ok? ==>
      && |r.value.messages| == 1 && r.value.answers.None?
      && (forall i :: 0 <= i < |trace| ==> IsWorker(trace[i].worker))
      && r.value.questions == Some(QuestionsUpdate(AddTag, QuestionsFold([], WorkerUpdates(trace))))
    ensures var p := PhaseFrom(env.oracle, StepLimit, 0, old(env.calls), old(env.delays), st.messages, [], []);
      && env.calls == p.calls && env.delays == p.delays && trace == p.steps
      && (p.result.Err? ==> r == Err(p.result.error))
      && (p.result.Ok? && p.log == [] ==> r == Err(IndexError))
      && (p.result.Ok? && p.log != [] ==> r == Ok(Update([p.log[0]], Some(QuestionsUpdate(AddTag, p.questions)), None, None)))
    ensures r.Ok? && st.messages != [] ==> r.value.messages == [st.messages[0]]
  {
    var team := new State(MessagesOnly(st.messages));
    var asked;
    asked, trace := QuestionPhase(env, team, StepLimit);
    if asked.Err? {
      return Err(asked.error), trace;
    }
    if |team.messages| == 0 {
      return Err(IndexError), trace;
    }
    return Ok(Update([team.messages[0]], Some(QuestionsUpdate(AddTag, team.questions)), None, None)), trace;
  }

  /**
   * `call_answer_supervisor`: the answer team runs on the top-level log and question list;
   * its first log entry, its question list under the "add" tag and its answers are returned.
   */
  method CallAnswerSupervisor(env: Env, st: State) returns (r: Result<Update, Error>, ghost starts: seq<Start>, ghost runs: seq<seq<Message>>)
    modifies env
    ensures r.Ok? ==>
      && |r.value.messages| == 1 && |st.messages| > 0 && r.value.messages[0] == st.messages[0]
      && r.value.questions == Some(QuestionsUpdate(AddTag, st.questions))
      && r.value.answers.Some?
      && var answers := r.value.answers.value;
      && |answers| == |st.questions| && |starts| == |runs| == |answers|
      && forall i :: 0 <= i < |answers| ==>
           AnsweredBy(env.oracle, starts[i], runs[i], st.messages[0], st.questions[i], answers[i])
  {
    var team := new State(Update(st.messages, Some(QuestionsUpdate(AddTag, st.questions)), None, None));
    UpdateQuestionsAddToEmpty(AddTag, st.questions);
    var answered;
    answered, starts, runs := AnswerPhase(env, team, StepLimit);
    if answered.Err? {
      return Err(answered.error), starts, runs;
    }
    if |team.messages| == 0 {
      return Err(IndexError), starts, runs;
    }
    return Ok(Update([team.messages[0]], Some(QuestionsUpdate(AddTag, team.questions)), Some(team.answers), None)), starts, runs;
  }

  /** The top-level graph's first node execution: `call_question_supervisor`, its update merged into the state. */
  method AskNode(env: Env, top: State) returns (r: Result<(), Error>, ghost trace: seq<WorkerStep>)
    requires top.questions == [] && top.messages != []
    modifies env, top
    ensures var p := PhaseFrom(env.oracle, StepLimit, 0, old(env.calls), old(env.delays), old(top.messages), [], []);
      && (p.result.Err? ==> r == Err(p.result.error))
      && (r.Ok? ==> p.result.Ok? && trace == p.steps && top.questions == p.questions)
    ensures r.Ok? ==>
      && (forall i :: 0 <= i < |trace| ==> IsWorker(trace[i].worker))
      && top.questions == QuestionsFold([], WorkerUpdates(trace))
    ensures |top.messages| > 0 && top.messages[0] == old(top.messages[0]) && top.answers == old(top.answers)
  {
    var asked;
    asked, trace := CallQuestionSupervisor(env, top);
    if asked.Err? {
      return Err(asked.error), trace;
    }
    UpdateQuestionsAddToEmpty(AddTag, asked.value.questions.value.batch);
    top.Apply(asked.value);
    return Ok(()), trace;
  }

  /** The top-level graph's second node execution: `call_answer_supervisor`, its update merged into the state. */
  method AnswerNode(env: Env, top: State) returns (r: Result<(), Error>, ghost starts: seq<Start>, ghost runs: seq<seq<Message>>)
    requires top.messages != [] && top.answers == []
    modifies env, top
    ensures top.questions == old(top.questions)
    ensures r.Ok? ==>
      && |top.answers| == |top.questions| && |starts| == |runs| == |top.answers|
      && forall i :: 0 <= i < |top.answers| ==>
           AnsweredBy(env.oracle, starts[i], runs[i], old(top.messages[0]), top.questions[i], top.answers[i])
  {
    var answered;
    answered, starts, runs := CallAnswerSupervisor(env, top);
    if answered.Err? {
      return Err(answered.error), starts, runs;
    }
    UpdateQuestionsAddSelf(top.questions);
    top.Apply(answered.value);
    return Ok(()), starts, runs;
  }

  /**
   * `run_graph`: the top-level graph runs the question supervisor node, then the answer
   * supervisor node, on a log holding the context message, and returns the questions and
   * the answers of its final state.
   */
  method RunGraph(env: Env, example: string)
    returns (r: Result<(seq<string>, seq<AnswerRecord>), Error>,
             ghost trace: seq<WorkerStep>, ghost starts: seq<Start>, ghost runs: seq<seq<Message>>)
    modifies env
    ensures r.Ok? ==>
      var (questions, answers) := r.value;
      && (forall i :: 0 <= i < |trace| ==> IsWorker(trace[i].worker))
      && questions == QuestionsFold([], WorkerUpdates(trace))
      && |answers| == |questions| && |starts| == |runs| == |answers|
      && forall i :: 0 <= i < |answers| ==>
           AnsweredBy(env.oracle, starts[i], runs[i], ContextMessage(example), questions[i], answers[i])
    ensures var p := PhaseFrom(env.oracle, StepLimit, 0, old(env.calls), old(env.delays), [ContextMessage(example)], [], []);
      && (p.result.Err? ==> r == Err(p.result.error))
      && (r.Ok? ==> p.result.Ok? && trace == p.steps && r.value.0 == p.questions)
  {
    starts, runs := [], [];
    var top := new State(MessagesOnly([ContextMessage(example)]));
    ghost var p := PhaseFrom(env.oracle, StepLimit, 0, env.calls, env.delays, top.messages, [], []);
    assert top.messages == [ContextMessage(example)];
    var asked;
    asked, trace := AskNode(env, top);
    if asked.Err? {
      return Err(asked.error), trace, starts, runs;
    }
    ghost var questions := top.questions;
    assert p.result.Ok? && trace == p.steps && questions == p.questions;
    var answered;
    answered, starts, runs := AnswerNode(env, top);
    if answered.Err? {
      return Err(answered.error), trace, starts, runs;
    }
    return Ok((top.questions, top.answers)), trace, starts, runs;
  }

  // ---------------------------------------------------------------------------------------
  // The batch loop

  /** `output_{i}.json` */
  function OutputName(i: nat): string {
    OutputPrefix + NatToString(i) + OutputSuffix
  }

  /** Distinct examples get distinct output files. */
  lemma OutputNameInjective(i: nat, j: nat)
    requires OutputName(i) == OutputName(j)
    ensures i == j
  {
    var a, b := OutputName(i), OutputName(j);
    assert NatToString(i) == a[|OutputPrefix|..|a| - |OutputSuffix|];
    assert NatToString(j) == b[|OutputPrefix|..|b| - |OutputSuffix|];
    NatToStringInjective(i, j);
  }

  /** What one output file holds. */
  datatype Output = Output(context: string, questions: seq<string>, answers: seq<AnswerRecord>)

  /** Some run of the oracle's refinement subgraph on the context and `question` yielded `a`. */
  ghost predicate Answered(o: Oracle, context: Message, question: string, a: AnswerRecord) {
    exists start: Start, run: seq<Message> :: AnsweredBy(o, start, run, context, question, a)
  }

  /** The question team, run on the example's context message from the point `start` of the oracle's script, handed on `questions`. */
  ghost predicate AskedFrom(o: Oracle, start: Start, example: string, questions: seq<string>) {
    var p := PhaseFrom(o, StepLimit, 0, start.0, start.1, [ContextMessage(example)], [], []);
    p.result.Ok? && p.questions == questions
  }

  /** Some run of the oracle's question team on the example's context message handed on `questions`. */
  ghost predicate Asked(o: Oracle, example: string, questions: seq<string>) {
    exists start: Start :: AskedFrom(o, start, example, questions)
  }

  /**
   * An output written for `example`: its context, the questions the oracle's question team
   * handed on for it, and as many answers as questions, each answer the one the oracle's
   * refinement run on that example and that question produced.
   */
  ghost predicate Fits(o: Oracle, out: Output, example: string) {
    && out.context == example
    && Asked(o, example, out.questions)
    && |out.questions| == |out.answers|
    && forall i :: 0 <= i < |out.answers| ==> Answered(o, ContextMessage(example), out.questions[i], out.answers[i])
  }

  /** The runs `run_graph` reports for an example are the evidence an output fits it. */
  lemma FitsByRuns(o: Oracle, out: Output, example: string, asked: Start, starts: seq<Start>, runs: seq<seq<Message>>)
    requires out.context == example
    requires AskedFrom(o, asked, example, out.questions)
    requires |out.questions| == |out.answers| == |starts| == |runs|
    requires forall i :: 0 <= i < |out.answers| ==>
      AnsweredBy(o, starts[i], runs[i], ContextMessage(example), out.questions[i], out.answers[i])
    ensures Fits(o, out, example)
  {
    forall i | 0 <= i < |out.answers|
      ensures Answered(o, ContextMessage(example), out.questions[i], out.answers[i])
    {
      var start, run := starts[i], runs[i];
      assert AnsweredBy(o, start, run, ContextMessage(example), out.questions[i], out.answers[i]);
    }
  }

  /** Every output file named after an example holds that example's result. */
  ghost predicate WrittenFor(o: Oracle, written: map<string, Output>, data: seq<string>) {
    forall j :: 0 <= j < |data| && OutputName(j) in written ==> Fits(o, written[OutputName(j)], data[j])
  }

  /** The names of the output files of the first `n` examples. */
  function Names(n: nat): set<string> {
    set j | 0 <= j < n :: OutputName(j)
  }

  lemma NamesSnoc(n: nat)
    ensures Names(n + 1) == Names(n) + {OutputName(n)}
  {
  }

  /** Writing example i's file leaves every other example's file as it was. */
  lemma WriteStep(o: Oracle, written: map<string, Output>, data: seq<string>, i: nat, out: Output)
    requires i < |data| && WrittenFor(o, written, data) && Fits(o, out, data[i])
    ensures WrittenFor(o, written[OutputName(i) := out], data)
  {
    var after := written[OutputName(i) := out];
    forall j | 0 <= j < |data| && OutputName(j) in after
      ensures Fits(o, after[OutputName(j)], data[j])
    {
      if OutputName(j) == OutputName(i) {
        OutputNameInjective(j, i);
      } else {
        assert OutputName(j) in written;
      }
    }
  }

  /**
   * The main loop: example i is skipped when `output_{i}.json` already exists and otherwise
   * run and written there. An error ends the loop with the files written so far.
   */
  method RunBatch(env: Env, data: seq<string>, existing: set<string>) returns (written: map<string, Output>, r: Result<(), Error>)
    modifies env
    ensures written.Keys !! existing
    ensures written.Keys <= Names(|data|)
    ensures WrittenFor(env.oracle, written, data)
    ensures r.Ok? ==> Names(|data|) <= existing + written.Keys
  {
    written := map[];
    for i := 0 to |data|
      invariant written.Keys !! existing
      invariant written.Keys <= Names(i)
      invariant WrittenFor(env.oracle, written, data)
      invariant Names(i) <= existing + written.Keys
    {
      var name := OutputName(i);
      NamesSnoc(i);
      if name in existing || name in written {
        continue;
      }
      ghost var asked: Start := (env.calls, env.delays);
      var result, _, starts, runs := RunGraph(env, data[i]);
      if result.Err? {
        return written, Err(result.error);
      }
      var out := Output(data[i], result.value.0, result.value.1);
      FitsByRuns(env.oracle, out, data[i], asked, starts, runs);
      WriteStep(env.oracle, written, data, i, out);
      written := written[name := out];
    }
    r := Ok(());
  }
}
