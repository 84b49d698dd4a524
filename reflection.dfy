/**
 * The generate/reflect refinement subgraph every worker runs (`FirstQuestionGenerator`,
 * `NextQuestionGenerator`, `CheckQuestions`, `AnswerGenerator`): a generate step, then
 * either the end or a reflect step followed by another generate step. It also holds the
 * rule every caller uses to pick the message holding the result out of the subgraph's log.
 */
module Reflection {
  import opened Base
  import opened Messages
  import opened Memory
  import opened Text
  import opened AgentUtils

  const ReflectNode := "reflect"
  const RecommendationKey := "recommendation"

  /** The subgraph of the question workers ends once its log is longer than this. */
  const QuestionLogCap: nat := 10
  /** The subgraph of the answer generator ends once its log is longer than this. */
  const AnswerLogCap: nat := 6

  /** The schema a subgraph chain is bound to and validated against: a Revision exactly for the reflect step. */
  function ChainSchema(task: Task, reflect: bool): (r: Schema)
    ensures IsRevision(r) <==> reflect
  {
    match task
    case FirstQuestion => if reflect then QuestionRevision else QuestionGeneration
    case NextQuestion => if reflect then QuestionRevision else QuestionGeneration
    case CheckQuestions => if reflect then CheckQuestionsRevision else CheckQuestionsGeneration
    case Answer => if reflect then AnswerRevision else AnswerGeneration
  }

  /** Each worker's reflect step is validated against its generate step's fields, under another name. */
  lemma ReflectMirrorsGenerate(task: Task)
    ensures BaseSchema(ChainSchema(task, true)) == ChainSchema(task, false)
    ensures Fields(ChainSchema(task, true)) == Fields(ChainSchema(task, false))
    ensures SchemaName(ChainSchema(task, true)) != SchemaName(ChainSchema(task, false))
  {
    RevisionMirrorsGeneration(ChainSchema(task, true));
  }

  /**
   * `"FINISH" in log[-1].tool_calls[0]["args"]["recommendation"]`, every lookup error read
   * as false: a substring test on a string, a membership test on a list.
   */
  predicate RecommendsFinish(log: seq<Message>) {
    match Last(log)
    case Err(_) => false
    case Ok(m) =>
      match FirstCall(m)
      case Err(_) => false
      case Ok(call) =>
        match Arg(call, RecommendationKey)
        case Err(_) => false
        case Ok(v) =>
          match v
          case Str(s) => Contains(s, FinishChoice)
          case Strs(items) => FinishChoice in items
  }

  /** `_should_continue`: the end on a FINISH recommendation or once the log is longer than `cap`, else reflect. */
  function ShouldContinue(log: seq<Message>, cap: nat): (next: string)
    ensures next == End || next == ReflectNode
    ensures next == End <==> RecommendsFinish(log) || |log| > cap
  {
    if RecommendsFinish(log) then End
    else if |log| > cap then End
    else ReflectNode
  }

  /** A FINISH anywhere inside the recommendation text ends the refinement. */
  lemma FinishInsideRecommendationEnds(log: seq<Message>, cap: nat, call: ToolCall, pre: string, post: string)
    requires |log| > 0 && log[|log| - 1].AI? && |log[|log| - 1].toolCalls| > 0
    requires log[|log| - 1].toolCalls[0] == call
    requires RecommendationKey in call.args && call.args[RecommendationKey] == Str(pre + FinishChoice + post)
    ensures ShouldContinue(log, cap) == End
  {
    var s := pre + FinishChoice + post;
    assert s[|pre|..|pre| + |FinishChoice|] == FinishChoice;
    assert OccursAt(s, FinishChoice, |pre|);
    ContainsIff(s, FinishChoice);
  }

  /**
   * Which subgraph entry holds the result: the last one when its first tool call is named
   * `revision`, otherwise the one before it; that entry must be a model reply.
   * (A length test before this choice assigns a value that is always overwritten.)
   */
  function ExtractMessage(log: seq<Message>, revision: string): (r: Result<Message, Error>)
    ensures r.Ok? ==> r.value.AI?
    ensures r.Ok? ==> |log| >= 1 && FirstCall(log[|log| - 1]).Ok?
    ensures r.Ok? && log[|log| - 1].toolCalls[0].name == revision ==> r.value == log[|log| - 1]
    ensures r.Ok? && log[|log| - 1].toolCalls[0].name != revision ==> |log| >= 2 && r.value == log[|log| - 2]
    ensures |log| >= 1 && FirstCall(log[|log| - 1]).Ok?
            && (log[|log| - 1].toolCalls[0].name == revision || (|log| >= 2 && log[|log| - 2].AI?))
            ==> r.Ok?
  {
    var last :- Last(log);
    var call :- FirstCall(last);
    var message :- if call.name == revision then Ok(last) else SecondLast(log);
    if message.AI? then Ok(message) else Err(AssertionError)
  }

  /** The log's last entry is a model reply whose first tool call is named `revision`. */
  predicate EndsWithRevision(log: seq<Message>, revision: string) {
    |log| > 0 && log[|log| - 1].AI? && |log[|log| - 1].toolCalls| > 0 && log[|log| - 1].toolCalls[0].name == revision
  }

  /** Extraction fails when the last entry is not a revision and the one before it is not a model reply. */
  lemma ExtractMessageFails(log: seq<Message>, revision: string)
    requires |log| >= 2 && !log[|log| - 2].AI? && !EndsWithRevision(log, revision)
    ensures ExtractMessage(log, revision).Err?
  {
  }

  /** A refinement run: its final log or error, the calls and sleeps after it, and how many generate steps ran. */
  datatype Run = Run(result: Result<seq<Message>, Error>, calls: nat, delays: seq<real>, generations: nat)

  /**
   * The subgraph from a generate step on, given the log it starts from. A generate step
   * appends its reply; when `ShouldContinue` says reflect, a reflect step appends its reply
   * and the next generate step follows. Errors from either step end the run.
   */
  function RefineFrom(o: Oracle, task: Task, cap: nat, calls: nat, delays: seq<real>, log: seq<Message>): Run
    decreases cap + 1 - |log|
  {
    var g := RespondSpec(o, Generate(task), calls, delays, log);
    RespondBounds(o, Generate(task), calls, delays, log);
    match g.result
    case Err(e) => Run(Err(e), g.calls, g.delays, 1)
    case Ok(m) =>
      var log1 := g.log + [m];
      if ShouldContinue(log1, cap) == End then Run(Ok(log1), g.calls, g.delays, 1)
      else
        var f := RespondSpec(o, Reflect(task), g.calls, g.delays, log1);
        RespondBounds(o, Reflect(task), g.calls, g.delays, log1);
        match f.result
        case Err(e) => Run(Err(e), f.calls, f.delays, 1)
        case Ok(m2) =>
          var rest := RefineFrom(o, task, cap, f.calls, f.delays, f.log + [m2]);
          rest.(generations := rest.generations + 1)
  }

  /** `graph.invoke({"messages": input})` on a refinement subgraph. */
  method RunRefinement(env: Env, input: seq<Message>, task: Task, cap: nat)
    returns (r: Result<seq<Message>, Error>, ghost generations: nat)
    modifies env
    ensures Run(r, env.calls, env.delays, generations)
         == RefineFrom(env.oracle, task, cap, old(env.calls), old(env.delays), input)
  {
    var sub := new State(MessagesOnly(input));
    generations := 0;
    while true
      invariant var spec := RefineFrom(env.oracle, task, cap, old(env.calls), old(env.delays), input);
        var rest := RefineFrom(env.oracle, task, cap, env.calls, env.delays, sub.messages);
        spec == rest.(generations := rest.generations + generations)
      decreases cap + 1 - |sub.messages|
    {
      ghost var calls0, delays0, log0 := env.calls, env.delays, sub.messages;
      var g := Respond(env, sub, Generate(task));
      RespondBounds(env.oracle, Generate(task), calls0, delays0, log0);
      generations := generations + 1;
      if g.Err? {
        return Err(g.error), generations;
      }
      sub.Apply(MessagesOnly([g.value]));
      if ShouldContinue(sub.messages, cap) == End {
        return Ok(sub.messages), generations;
      }
      ghost var calls1, delays1, log1 := env.calls, env.delays, sub.messages;
      var f := Respond(env, sub, Reflect(task));
      RespondBounds(env.oracle, Reflect(task), calls1, delays1, log1);
      if f.Err? {
        return Err(f.error), generations;
      }
      sub.Apply(MessagesOnly([f.value]));
    }
  }

  /** A run that ends well extends its input, ends by the stop rule, and ran at least one generate step. */
  lemma {:induction false} RefineFromEnds(o: Oracle, task: Task, cap: nat, calls: nat, delays: seq<real>, log: seq<Message>)
    ensures var run := RefineFrom(o, task, cap, calls, delays, log);
      && run.generations >= 1
      && (run.result.Ok? ==> log < run.result.value && ShouldContinue(run.result.value, cap) == End)
    decreases cap + 1 - |log|
  {
    var g := RespondSpec(o, Generate(task), calls, delays, log);
    RespondBounds(o, Generate(task), calls, delays, log);
    if g.result.Ok? {
      var log1 := g.log + [g.result.value];
      if ShouldContinue(log1, cap) != End {
        var f := RespondSpec(o, Reflect(task), g.calls, g.delays, log1);
        RespondBounds(o, Reflect(task), g.calls, g.delays, log1);
        if f.result.Ok? {
          RefineFromEnds(o, task, cap, f.calls, f.delays, f.log + [f.result.value]);
        }
      }
    }
  }

  /**
   * A run that stops at its first generate step leaves, just before the generate reply,
   * either the input's last entry or a validation feedback message.
   */
  lemma FirstStopSecondLast(o: Oracle, task: Task, cap: nat, calls: nat, delays: seq<real>, log: seq<Message>)
    requires |log| > 0
    ensures var run := RefineFrom(o, task, cap, calls, delays, log);
      run.result.Ok? && run.generations == 1 ==>
        var r := run.result.value;
        |r| >= 2 && (r[|r| - 2] == log[|log| - 1] || r[|r| - 2].ToolResult?)
  {
    var g := RespondSpec(o, Generate(task), calls, delays, log);
    RespondBounds(o, Generate(task), calls, delays, log);
    RespondLogEnd(o, Generate(task), calls, delays, log);
    if g.result.Ok? {
      var log1 := g.log + [g.result.value];
      if ShouldContinue(log1, cap) != End {
        var f := RespondSpec(o, Reflect(task), g.calls, g.delays, log1);
        if f.result.Ok? {
          RefineFromEnds(o, task, cap, f.calls, f.delays, f.log + [f.result.value]);
        }
      }
    }
  }

  /**
   * On an input ending in an entry that is not a model reply, a run that stops at its
   * first generate step, with a reply not named `revision`, yields nothing to extract.
   */
  lemma FirstStopExtractionFails(o: Oracle, task: Task, cap: nat, calls: nat, delays: seq<real>,
                                 input: seq<Message>, revision: string)
    requires |input| > 0 && !input[|input| - 1].AI?
    ensures var run := RefineFrom(o, task, cap, calls, delays, input);
      run.result.Ok? && run.generations == 1 && !EndsWithRevision(run.result.value, revision)
      ==> ExtractMessage(run.result.value, revision).Err?
  {
    FirstStopSecondLast(o, task, cap, calls, delays, input);
    var run := RefineFrom(o, task, cap, calls, delays, input);
    if run.result.Ok? && run.generations == 1 && !EndsWithRevision(run.result.value, revision) {
      ExtractMessageFails(run.result.value, revision);
    }
  }
}
