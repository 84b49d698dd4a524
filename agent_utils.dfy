/**
 * The retrying invocation wrapper (`ResponderWithRetries.respond`) and the model-driven
 * routing node of a supervisor (`create_supervisor_node`).
 *
 * Every model call is an oracle: `Oracle.reply` gives the outcome of call number `n` on
 * a chain for the log it is shown, `Oracle.verdict` is the output validator, and
 * `Oracle.jitter` is the value `random.uniform(0, 1.0)` draws before the k-th sleep.
 * `Env` counts the calls made so far and records every requested sleep.
 */
module AgentUtils {
  import opened Base
  import opened Messages
  import opened Memory

  /** The graph framework's end marker. */
  const End := "__end__"
  const RouterName := "Router"
  const FinishChoice := "FINISH"

  const MaxValidationAttempts: nat := 2
  const MaxRequestRetries: nat := 2
  const BaseDelay: real := 2.0
  const MaxJitter: real := 1.0

  const MaxRouteAttempts: nat := 2
  const QuestionCeiling: nat := 10
  const MessageCeiling: nat := 20

  /** The four users of the generate/reflect subgraph. */
  datatype Task = FirstQuestion | NextQuestion | CheckQuestions | Answer

  /** A prompt bound to a model and its output schema: the routing chain, or a subgraph's generate or reflect chain. */
  datatype Chain = Routing | Generate(task: Task) | Reflect(task: Task)

  /** What one `runnable.invoke` did. */
  datatype Outcome = Reply(msg: Message) | Raise(error: Error)

  /** What `validator.invoke(response)` did: accepted it, raised a ValidationError (shown by its repr), or raised something else. */
  datatype Verdict = Valid | Invalid(repr: string) | Raises(error: Error)

  datatype Oracle = Oracle(
    reply: (Chain, nat, seq<Message>) -> Outcome,
    verdict: (Chain, Message) -> Verdict,
    schemaJson: Chain -> string,
    jitter: nat -> real)

  /** `random.uniform(0, max_jitter)` never leaves its range. */
  ghost predicate JitterInRange(o: Oracle) {
    forall k: nat :: 0.0 <= o.jitter(k) <= MaxJitter
  }

  /** The model service, the random source and the clock, as one object. */
  class Env {
    const oracle: Oracle
    var calls: nat
    var delays: seq<real>

    constructor (oracle: Oracle)
      ensures this.oracle == oracle && calls == 0 && delays == []
    {
      this.oracle := oracle;
      calls := 0;
      delays := [];
    }

    /** `runnable.invoke({"messages": log})` */
    method Invoke(chain: Chain, log: seq<Message>) returns (out: Outcome)
      modifies this
      ensures out == oracle.reply(chain, old(calls), log)
      ensures calls == old(calls) + 1 && delays == old(delays)
    {
      out := oracle.reply(chain, calls, log);
      calls := calls + 1;
    }

    /** `random.uniform(0, max_jitter)` */
    method Uniform() returns (j: real)
      ensures j == oracle.jitter(|delays|)
    {
      j := oracle.jitter(|delays|);
    }

    /** `time.sleep(seconds)`, recorded rather than waited. */
    method Sleep(seconds: real)
      modifies this
      ensures delays == old(delays) + [seconds] && calls == old(calls)
    {
      delays := delays + [seconds];
    }
  }

  function Pow2(n: nat): real {
    if n == 0 then 1.0 else 2.0 * Pow2(n - 1)
  }

  /** The wait before request retry `retry + 1`: `2^retry * base_delay + jitter`. */
  function Backoff(retry: nat, jitter: real): real {
    Pow2(retry) * BaseDelay + jitter
  }

  /** Retry k waits between `2^k * 2.0` and `2^k * 2.0 + 1.0` seconds. */
  lemma BackoffBounds(retry: nat, jitter: real)
    requires 0.0 <= jitter <= MaxJitter
    ensures Pow2(retry) * 2.0 <= Backoff(retry, jitter) <= Pow2(retry) * 2.0 + 1.0
    ensures retry == 0 ==> 2.0 <= Backoff(retry, jitter) <= 3.0
  {
  }

  /** The corrective message a failed validation adds to the log. */
  const SchemaHint := "\n\nPay close attention to the function schema.\n\n"
  const FixHint := " Respond by fixing all validation errors."

  function Feedback(repr: string, schemaJson: string): string {
    repr + SchemaHint + schemaJson + FixHint
  }

  /** The result of the request-retry loop, with the call count and sleeps after it. */
  datatype Request = Request(result: Result<Message, Error>, calls: nat, delays: seq<real>)

  /**
   * The request-retry loop from retry `retry` on: a reply ends it; a transient error
   * before the last retry sleeps and retries; any other error, or a transient error on
   * the last retry, is raised as it is.
   */
  function RequestFrom(o: Oracle, chain: Chain, log: seq<Message>, retry: nat, calls: nat, delays: seq<real>): Request
    requires retry < MaxRequestRetries
    decreases MaxRequestRetries - retry
  {
    match o.reply(chain, calls, log)
    case Reply(m) => Request(Ok(m), calls + 1, delays)
    case Raise(e) =>
      if e.Transient? && retry < MaxRequestRetries - 1 then
        RequestFrom(o, chain, log, retry + 1, calls + 1, delays + [Backoff(retry, o.jitter(|delays|))])
      else
        Request(Err(e), calls + 1, delays)
  }

  /** The result of `respond`, with the call count, the sleeps and the log after it. */
  datatype Trace = Trace(result: Result<Message, Error>, calls: nat, delays: seq<real>, log: seq<Message>)

  /**
   * The validation loop from attempt `attempt` on. A validated response is returned with
   * the log as it is; a response failing validation is appended to the log together with a
   * feedback tool message answering its first tool call; once the attempts are used up the
   * last raw response is returned.
   */
  function RespondFrom(o: Oracle, chain: Chain, attempt: nat, calls: nat, delays: seq<real>,
                       log: seq<Message>, last: Option<Message>): Trace
    requires attempt == 0 || last.Some?
    decreases MaxValidationAttempts - attempt, 1
  {
    if attempt >= MaxValidationAttempts then Trace(Ok(last.value), calls, delays, log)
    else AfterRequest(o, chain, attempt, RequestFrom(o, chain, log, 0, calls, delays), log)
  }

  /** The rest of validation attempt `attempt` once its request has produced `req`. */
  function AfterRequest(o: Oracle, chain: Chain, attempt: nat, req: Request, log: seq<Message>): Trace
    requires attempt < MaxValidationAttempts
    decreases MaxValidationAttempts - attempt, 0
  {
    match req.result
    case Err(e) => Trace(Err(e), req.calls, req.delays, log)
    case Ok(m) =>
      match o.verdict(chain, m)
      case Valid => Trace(Ok(m), req.calls, req.delays, log)
      case Raises(e) => Trace(Err(e), req.calls, req.delays, log)
      case Invalid(repr) =>
        match FirstCall(m)
        case Err(e) => Trace(Err(e), req.calls, req.delays, log + [m])
        case Ok(call) =>
          RespondFrom(o, chain, attempt + 1, req.calls, req.delays,
                      log + [m, ToolResult(Feedback(repr, o.schemaJson(chain)), call.id)], Some(m))
  }

  function RespondSpec(o: Oracle, chain: Chain, calls: nat, delays: seq<real>, log: seq<Message>): Trace {
    RespondFrom(o, chain, 0, calls, delays, log, None)
  }

  /** The inner `for retry in range(max_request_retries)` loop of `respond`. */
  method RequestWithBackoff(env: Env, chain: Chain, log: seq<Message>) returns (r: Result<Message, Error>)
    modifies env
    ensures Request(r, env.calls, env.delays) == RequestFrom(env.oracle, chain, log, 0, old(env.calls), old(env.delays))
  {
    var retry := 0;
    while true
      invariant retry < MaxRequestRetries
      invariant RequestFrom(env.oracle, chain, log, 0, old(env.calls), old(env.delays))
             == RequestFrom(env.oracle, chain, log, retry, env.calls, env.delays)
      decreases MaxRequestRetries - retry
    {
      var out := env.Invoke(chain, log);
      match out {
        case Reply(m) =>
          return Ok(m);
        case Raise(e) =>
          if e.Transient? && retry < MaxRequestRetries - 1 {
            var jitter := env.Uniform();
            env.Sleep(Backoff(retry, jitter));
            retry := retry + 1;
          } else {
            return Err(e);
          }
      }
    }
  }

  /** `ResponderWithRetries.respond(state)`: the log is `st.messages`, extended in place on failed validations. */
  method Respond(env: Env, st: State, chain: Chain) returns (r: Result<Message, Error>)
    modifies env, st`messages
    ensures Trace(r, env.calls, env.delays, st.messages)
         == RespondSpec(env.oracle, chain, old(env.calls), old(env.delays), old(st.messages))
  {
    var response: Option<Message> := None;
    var attempt := 0;
    while attempt < MaxValidationAttempts
      invariant attempt <= MaxValidationAttempts
      invariant attempt == 0 || response.Some?
      invariant RespondSpec(env.oracle, chain, old(env.calls), old(env.delays), old(st.messages))
             == RespondFrom(env.oracle, chain, attempt, env.calls, env.delays, st.messages, response)
    {
      ghost var before := RespondFrom(env.oracle, chain, attempt, env.calls, env.delays, st.messages, response);
      ghost var log := st.messages;
      var req := RequestWithBackoff(env, chain, st.messages);
      assert before == AfterRequest(env.oracle, chain, attempt, Request(req, env.calls, env.delays), log);
      if req.Err? {
        return req;
      }
      var m := req.value;
      match env.oracle.verdict(chain, m) {
        case Valid =>
          return Ok(m);
        case Raises(e) =>
          return Err(e);
        case Invalid(repr) =>
          st.messages := st.messages + [m];
          var call := FirstCall(m);
          if call.Err? {
            return Err(call.error);
          }
          st.messages := st.messages + [ToolResult(Feedback(repr, env.oracle.schemaJson(chain)), call.value.id)];
          assert st.messages == log + [m, ToolResult(Feedback(repr, env.oracle.schemaJson(chain)), call.value.id)];
      }
      response := Some(m);
      attempt := attempt + 1;
    }
    return Ok(response.value);
  }

  /**
   * One request makes one or two calls and at most one sleep of `2^0 * 2.0 + jitter`;
   * a second call and the sleep happen exactly when the first call raised a transient error;
   * an error that escapes is the last call's error, unchanged.
   */
  lemma RequestShape(o: Oracle, chain: Chain, log: seq<Message>, calls: nat, delays: seq<real>)
    ensures var q := RequestFrom(o, chain, log, 0, calls, delays);
      && (q.calls == calls + 2 <==> o.reply(chain, calls, log).Raise? && o.reply(chain, calls, log).error.Transient?)
      && (q.calls == calls + 1 || q.calls == calls + 2)
      && (q.calls == calls + 1 ==> q.delays == delays)
      && (q.calls == calls + 2 ==> q.delays == delays + [Backoff(0, o.jitter(|delays|))])
      && (q.result.Err? ==> o.reply(chain, q.calls - 1, log) == Raise(q.result.error))
      && (q.result.Ok? ==> o.reply(chain, q.calls - 1, log) == Reply(q.result.value))
  {
  }

  /** From attempt `attempt` on, each remaining attempt makes one or two calls, sleeps at most once and appends at most two entries. */
  lemma {:induction false} RespondFromBounds(o: Oracle, chain: Chain, attempt: nat, calls: nat, delays: seq<real>,
                                             log: seq<Message>, last: Option<Message>)
    requires attempt <= MaxValidationAttempts && (attempt == 0 || last.Some?)
    ensures var t := RespondFrom(o, chain, attempt, calls, delays, log, last);
      && (attempt < MaxValidationAttempts ==> calls + 1 <= t.calls)
      && calls <= t.calls <= calls + (MaxValidationAttempts - attempt) * MaxRequestRetries
      && delays <= t.delays && |t.delays| <= |delays| + (MaxValidationAttempts - attempt)
      && log <= t.log && |t.log| <= |log| + 2 * (MaxValidationAttempts - attempt)
    decreases MaxValidationAttempts - attempt
  {
    if attempt < MaxValidationAttempts {
      var q := RequestFrom(o, chain, log, 0, calls, delays);
      RequestShape(o, chain, log, calls, delays);
      assert RespondFrom(o, chain, attempt, calls, delays, log, last) == AfterRequest(o, chain, attempt, q, log);
      if q.result.Ok? && o.verdict(chain, q.result.value).Invalid? && FirstCall(q.result.value).Ok? {
        var m := q.result.value;
        var log1 := log + [m, ToolResult(Feedback(o.verdict(chain, m).repr, o.schemaJson(chain)), FirstCall(m).value.id)];
        RespondFromBounds(o, chain, attempt + 1, q.calls, q.delays, log1, Some(m));
      }
    }
  }

  /** `respond` calls the model one to four times, sleeps at most twice, and only ever appends to the log. */
  lemma RespondBounds(o: Oracle, chain: Chain, calls: nat, delays: seq<real>, log: seq<Message>)
    ensures var t := RespondSpec(o, chain, calls, delays, log);
      && calls + 1 <= t.calls <= calls + MaxValidationAttempts * MaxRequestRetries
      && delays <= t.delays && |t.delays| <= |delays| + 2
      && log <= t.log && |t.log| <= |log| + 4
  {
    RespondFromBounds(o, chain, 0, calls, delays, log, None);
  }

  /** From attempt `attempt` on, a result that is not an error leaves the log as it was or ending in a feedback message. */
  lemma {:induction false} RespondFromLogEnd(o: Oracle, chain: Chain, attempt: nat, calls: nat, delays: seq<real>,
                                             log: seq<Message>, last: Option<Message>)
    requires attempt <= MaxValidationAttempts && (attempt == 0 || last.Some?)
    ensures var t := RespondFrom(o, chain, attempt, calls, delays, log, last);
      t.result.Ok? ==> t.log == log || (|t.log| > |log| && t.log[|t.log| - 1].ToolResult?)
    decreases MaxValidationAttempts - attempt
  {
    if attempt < MaxValidationAttempts {
      var q := RequestFrom(o, chain, log, 0, calls, delays);
      assert RespondFrom(o, chain, attempt, calls, delays, log, last) == AfterRequest(o, chain, attempt, q, log);
      if q.result.Ok? && o.verdict(chain, q.result.value).Invalid? && FirstCall(q.result.value).Ok? {
        var m := q.result.value;
        var log1 := log + [m, ToolResult(Feedback(o.verdict(chain, m).repr, o.schemaJson(chain)), FirstCall(m).value.id)];
        RespondFromLogEnd(o, chain, attempt + 1, q.calls, q.delays, log1, Some(m));
        RespondFromBounds(o, chain, attempt + 1, q.calls, q.delays, log1, Some(m));
      }
    }
  }

  /** When `respond` returns a reply, the log is untouched or its last entry is a feedback message. */
  lemma RespondLogEnd(o: Oracle, chain: Chain, calls: nat, delays: seq<real>, log: seq<Message>)
    ensures var t := RespondSpec(o, chain, calls, delays, log);
      t.result.Ok? ==> t.log == log || (|t.log| > |log| && t.log[|t.log| - 1].ToolResult?)
  {
    RespondFromLogEnd(o, chain, 0, calls, delays, log, None);
  }

  /** Every sleep `respond` requests lasts between 2.0 and 3.0 seconds. */
  lemma RespondDelaysBounded(o: Oracle, chain: Chain, calls: nat, delays: seq<real>, log: seq<Message>)
    requires JitterInRange(o)
    ensures var t := RespondSpec(o, chain, calls, delays, log);
      forall k :: |delays| <= k < |t.delays| ==> 2.0 <= t.delays[k] <= 3.0
  {
    var q := RequestFrom(o, chain, log, 0, calls, delays);
    RequestShape(o, chain, log, calls, delays);
    BackoffBounds(0, o.jitter(|delays|));
    if q.result.Ok? && o.verdict(chain, q.result.value).Invalid? && FirstCall(q.result.value).Ok? {
      var m := q.result.value;
      var log1 := log + [m, ToolResult(Feedback(o.verdict(chain, m).repr, o.schemaJson(chain)), FirstCall(m).value.id)];
      RequestShape(o, chain, log1, q.calls, q.delays);
      BackoffBounds(0, o.jitter(|q.delays|));
    }
  }

  /** A first reply that validates is returned at once and the log is left untouched. */
  lemma RespondValidFirst(o: Oracle, chain: Chain, calls: nat, delays: seq<real>, log: seq<Message>, m: Message)
    requires o.reply(chain, calls, log) == Reply(m) && o.verdict(chain, m) == Valid
    ensures RespondSpec(o, chain, calls, delays, log) == Trace(Ok(m), calls + 1, delays, log)
  {
  }

  /**
   * Two replies that both fail validation: each adds the raw reply and a feedback message
   * answering its first tool call's id; the second raw reply is returned, not raised.
   */
  lemma RespondTwoFailures(o: Oracle, chain: Chain, calls: nat, delays: seq<real>, log: seq<Message>,
                           m1: Message, c1: ToolCall, e1: string, m2: Message, c2: ToolCall, e2: string)
    requires o.reply(chain, calls, log) == Reply(m1) && o.verdict(chain, m1) == Invalid(e1) && FirstCall(m1) == Ok(c1)
    requires var log1 := log + [m1, ToolResult(Feedback(e1, o.schemaJson(chain)), c1.id)];
      o.reply(chain, calls + 1, log1) == Reply(m2) && o.verdict(chain, m2) == Invalid(e2) && FirstCall(m2) == Ok(c2)
    ensures RespondSpec(o, chain, calls, delays, log)
         == Trace(Ok(m2), calls + 2, delays,
                  log + [m1, ToolResult(Feedback(e1, o.schemaJson(chain)), c1.id),
                         m2, ToolResult(Feedback(e2, o.schemaJson(chain)), c2.id)])
  {
  }

  /** A failed validation of a reply without tool calls raises after the reply alone was appended. */
  lemma RespondInvalidWithoutToolCall(o: Oracle, chain: Chain, calls: nat, delays: seq<real>, log: seq<Message>, m: Message, e: string)
    requires o.reply(chain, calls, log) == Reply(m) && o.verdict(chain, m) == Invalid(e) && FirstCall(m).Err?
    ensures RespondSpec(o, chain, calls, delays, log) == Trace(Err(FirstCall(m).error), calls + 1, delays, log + [m])
  {
  }

  /** A transient error on retry 0 sleeps once and retries; a second error propagates unchanged, log untouched. */
  lemma RespondTransientTwice(o: Oracle, chain: Chain, calls: nat, delays: seq<real>, log: seq<Message>, k: TransientKind, e: Error)
    requires o.reply(chain, calls, log) == Raise(Transient(k)) && o.reply(chain, calls + 1, log) == Raise(e)
    ensures RespondSpec(o, chain, calls, delays, log)
         == Trace(Err(e), calls + 2, delays + [Backoff(0, o.jitter(|delays|))], log)
  {
  }

  /** An error outside the transient list propagates at once, without sleeping. */
  lemma RespondOtherErrorImmediate(o: Oracle, chain: Chain, calls: nat, delays: seq<real>, log: seq<Message>, e: Error)
    requires o.reply(chain, calls, log) == Raise(e) && !e.Transient?
    ensures RespondSpec(o, chain, calls, delays, log) == Trace(Err(e), calls + 1, delays, log)
  {
  }

  // ---------------------------------------------------------------------------------------
  // The routing node of a supervisor

  /**
   * What one routing attempt finds in the response: `Some(next)` from a first tool call
   * named "Router", `None` when there is no such call, an error when the Router call has
   * no string `next` argument.
   */
  function RouterChoice(m: Message): (r: Result<Option<string>, Error>)
    ensures r.Ok? && r.value.Some? <==>
      m.AI? && |m.toolCalls| > 0 && m.toolCalls[0].name == RouterName && StrArg(m.toolCalls[0], "next").Ok?
    ensures r.Ok? && r.value.Some? ==> r.value.value == m.toolCalls[0].args["next"].s
    ensures r.Err? ==> IsLookupError(r.error)
  {
    if !(m.AI? && |m.toolCalls| > 0) || m.toolCalls[0].name != RouterName then Ok(None)
    else
      var next :- StrArg(m.toolCalls[0], "next");
      Ok(Some(next))
  }

  /** "FINISH" and the empty choice both mean the end of the graph. */
  function Normalize(goto: string): (r: string)
    ensures r != FinishChoice && r != ""
    ensures goto != FinishChoice && goto != "" ==> r == goto
  {
    if goto == FinishChoice || goto == "" then End else goto
  }

  /** What one routing attempt yields: the Router call's `next`, none, or the error raised. */
  function AttemptChoice(t: Trace): Result<Option<string>, Error> {
    if t.result.Ok? then RouterChoice(t.result.value) else Err(t.result.error)
  }

  datatype RouteTrace = RouteTrace(result: Result<string, Error>, calls: nat, delays: seq<real>, log: seq<Message>)

  /**
   * The routing attempts from `attempt` on, `goto` holding the choice so far. A Router choice
   * ends the loop; a lookup error on the last attempt sets the choice to the end; any other
   * error propagates. The choice is normalised when the loop ends.
   */
  function RouteFrom(o: Oracle, attempt: nat, goto: string, calls: nat, delays: seq<real>, log: seq<Message>): RouteTrace
    decreases MaxRouteAttempts - attempt
  {
    if attempt >= MaxRouteAttempts then RouteTrace(Ok(Normalize(goto)), calls, delays, log)
    else
      var t := RespondSpec(o, Routing, calls, delays, log);
      match AttemptChoice(t)
      case Ok(Some(next)) => RouteTrace(Ok(Normalize(next)), t.calls, t.delays, t.log)
      case Ok(None) => RouteFrom(o, attempt + 1, goto, t.calls, t.delays, t.log)
      case Err(e) =>
        if IsLookupError(e) then
          RouteFrom(o, attempt + 1, if attempt == MaxRouteAttempts - 1 then End else goto, t.calls, t.delays, t.log)
        else
          RouteTrace(Err(e), t.calls, t.delays, t.log)
  }

  /** The routing decision: the hard ceilings first, then up to two model attempts. */
  function RouteSpec(o: Oracle, questions: seq<string>, calls: nat, delays: seq<real>, log: seq<Message>): RouteTrace {
    if |questions| >= QuestionCeiling || |log| >= MessageCeiling then RouteTrace(Ok(End), calls, delays, log)
    else RouteFrom(o, 0, "", calls, delays, log)
  }

  /** The Command a supervisor returns: go to `goto` and record it under `next`. */
  function RouteCommand(goto: string): (c: Command)
    ensures c.goto == goto && c.update.next == Some(goto)
    ensures c.update.messages == [] && c.update.questions.None? && c.update.answers.None?
  {
    Command(goto, Update([], None, None, Some(goto)))
  }

  /** The inner `supervisor_node` of `create_supervisor_node`. */
  method SupervisorNode(env: Env, st: State) returns (r: Result<Command, Error>)
    modifies env, st`messages
    ensures var t := RouteSpec(env.oracle, old(st.questions), old(env.calls), old(env.delays), old(st.messages));
      && env.calls == t.calls && env.delays == t.delays && st.messages == t.log
      && (if t.result.Ok? then r == Ok(RouteCommand(t.result.value)) else r == Err(t.result.error))
  {
    var goto := "";
    if |st.questions| >= QuestionCeiling || |st.messages| >= MessageCeiling {
      goto := End;
    } else {
      var attempt := 0;
      while attempt < MaxRouteAttempts
        invariant attempt <= MaxRouteAttempts
        invariant RouteSpec(env.oracle, old(st.questions), old(env.calls), old(env.delays), old(st.messages))
               == RouteFrom(env.oracle, attempt, goto, env.calls, env.delays, st.messages)
      {
        var response := Respond(env, st, Routing);
        var choice := if response.Ok? then RouterChoice(response.value) else Err(response.error);
        if choice.Ok? && choice.value.Some? {
          goto := choice.value.value;
          break;
        }
        if choice.Err? {
          if !IsLookupError(choice.error) {
            return Err(choice.error);
          }
          if attempt == MaxRouteAttempts - 1 {
            goto := End;
          }
        }
        attempt := attempt + 1;
      }
      goto := Normalize(goto);
    }
    return Ok(RouteCommand(goto));
  }

  /** At 10 questions or 20 log entries the decision is the end, without calling the model or touching the log. */
  lemma RouteCeiling(o: Oracle, questions: seq<string>, calls: nat, delays: seq<real>, log: seq<Message>)
    requires |questions| >= QuestionCeiling || |log| >= MessageCeiling
    ensures RouteSpec(o, questions, calls, delays, log) == RouteTrace(Ok(End), calls, delays, log)
  {
  }

  /** The decision is never "FINISH" nor empty, the log only grows, and at most two `respond` calls are made. */
  lemma {:induction false} RouteFromShape(o: Oracle, attempt: nat, goto: string, calls: nat, delays: seq<real>, log: seq<Message>)
    requires attempt <= MaxRouteAttempts
    ensures var t := RouteFrom(o, attempt, goto, calls, delays, log);
      && (t.result.Ok? ==> t.result.value != FinishChoice && t.result.value != "")
      && log <= t.log
      && calls <= t.calls <= calls + (MaxRouteAttempts - attempt) * 4
    decreases MaxRouteAttempts - attempt
  {
    if attempt < MaxRouteAttempts {
      var t := RespondSpec(o, Routing, calls, delays, log);
      RespondBounds(o, Routing, calls, delays, log);
      RouteFromShape(o, attempt + 1, goto, t.calls, t.delays, t.log);
      RouteFromShape(o, attempt + 1, End, t.calls, t.delays, t.log);
    }
  }

  /** Routing makes at most 2 x 4 model calls, never answers "FINISH" or "", and leaves a longer or equal log. */
  lemma RouteShape(o: Oracle, questions: seq<string>, calls: nat, delays: seq<real>, log: seq<Message>)
    ensures var t := RouteSpec(o, questions, calls, delays, log);
      && (t.result.Ok? ==> t.result.value != FinishChoice && t.result.value != "")
      && log <= t.log
      && calls <= t.calls <= calls + 8
      && (t.result.Ok? && t.result.value != End ==> |questions| < QuestionCeiling && |log| < MessageCeiling)
  {
    if !(|questions| >= QuestionCeiling || |log| >= MessageCeiling) {
      RouteFromShape(o, 0, "", calls, delays, log);
    }
  }

  /** The first attempt that yields a Router call stops the loop: its `next` is the decision. */
  lemma RouteFirstRouterWins(o: Oracle, questions: seq<string>, calls: nat, delays: seq<real>, log: seq<Message>, next: string)
    requires |questions| < QuestionCeiling && |log| < MessageCeiling
    requires AttemptChoice(RespondSpec(o, Routing, calls, delays, log)) == Ok(Some(next))
    ensures var t := RespondSpec(o, Routing, calls, delays, log);
      RouteSpec(o, questions, calls, delays, log) == RouteTrace(Ok(Normalize(next)), t.calls, t.delays, t.log)
  {
  }

  /** An attempt that leaves the choice to the next one: no Router call, or a lookup error. */
  predicate Missed(choice: Result<Option<string>, Error>) {
    choice == Ok(None) || (choice.Err? && IsLookupError(choice.error))
  }

  /** After a missed first attempt, a Router call on the second decides: its normalised `next`. */
  lemma RouteSecondRouterWins(o: Oracle, questions: seq<string>, calls: nat, delays: seq<real>, log: seq<Message>, next: string)
    requires |questions| < QuestionCeiling && |log| < MessageCeiling
    requires var t := RespondSpec(o, Routing, calls, delays, log);
      Missed(AttemptChoice(t)) && AttemptChoice(RespondSpec(o, Routing, t.calls, t.delays, t.log)) == Ok(Some(next))
    ensures RouteSpec(o, questions, calls, delays, log).result == Ok(Normalize(next))
  {
  }

  /**
   * Two missed attempts, in any combination of no Router call and lookup errors, make the
   * decision the end.
   */
  lemma RouteMissesEnd(o: Oracle, questions: seq<string>, calls: nat, delays: seq<real>, log: seq<Message>)
    requires |questions| < QuestionCeiling && |log| < MessageCeiling
    requires var t := RespondSpec(o, Routing, calls, delays, log);
      Missed(AttemptChoice(t)) && Missed(AttemptChoice(RespondSpec(o, Routing, t.calls, t.delays, t.log)))
    ensures RouteSpec(o, questions, calls, delays, log).result == Ok(End)
  {
  }

  /** Any other error, on either attempt, propagates out of the supervisor. */
  lemma RouteOtherErrorRaises(o: Oracle, questions: seq<string>, calls: nat, delays: seq<real>, log: seq<Message>, e: Error)
    requires |questions| < QuestionCeiling && |log| < MessageCeiling && !IsLookupError(e)
    requires var t := RespondSpec(o, Routing, calls, delays, log);
      || AttemptChoice(t) == Err(e)
      || (Missed(AttemptChoice(t)) && AttemptChoice(RespondSpec(o, Routing, t.calls, t.delays, t.log)) == Err(e))
    ensures RouteSpec(o, questions, calls, delays, log).result == Err(e)
  {
  }
}
