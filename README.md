# QAG orchestration core, modelled in Dafny

QAG turns a text context into a list of complex questions and grounded answers. It drives a
language model through a hierarchy of supervisors and workers. This project models the host-side
control logic of that hierarchy and proves properties of it:

- **Memory** (`src/memory.py`): the shared graph state `OverallState`, modelled as a class `State`.
  Its reducers are `update_questions` (add or remove a batch), answers merged by concatenation and
  messages merged by appending. It also models the structured-output schemas and the `Command` a
  node returns.
- **AgentUtils** (`src/agent_utils.py`): the retrying wrapper `ResponderWithRetries.respond`. Its
  outer loop makes two validation attempts and appends feedback to the log after each failed one.
  Its inner loop makes two request retries with exponential backoff. The module also models the
  model-routed supervisor node, with its hard ceilings of 10 questions and 20 log entries.
- **Reflection**: the generate/reflect subgraph that every worker runs. It stops on a "FINISH"
  recommendation or once the log exceeds a cap (10 for the question workers, 6 for the answer
  generator). The module also holds the rule that picks the result message out of the subgraph's log.
- **QuestionTeam** (`src/question_team.py`): the first-question, next-question and check-questions
  workers, and the model-routed question phase.
- **AnswerTeam** (`src/answer_team.py`): the self-reference guard `check_answer_explanation`, the
  answer generator, and the deterministic answer phase.
- **Prepare** (`src/main.py`): `prepare_example` and `get_data`, which frame a data line's
  documents as numbered blocks.
- **Pipeline** (`src/main.py`): the top-level graph's two hand-off nodes, `run_graph`, and the
  batch loop that writes `output_{i}.json` unless the file exists.
- **OptimizedQag** (`optimized_qag_openai.py`, sequential mode): one model call per sample. The reply's
  brace-delimited span is decoded as JSON. When no JSON can be found or decoded, the fallback keeps
  the reply's lines that end in `?`. The record goes to `optimized_sample_{i+1}.json`.
- **Text**, **Messages** and **Base** hold the Python string operations, the message, tool-call and
  exception shapes, and `Option`/`Result`.

The language model, the output validator, the random jitter and the clock are an `Oracle` value
held by the class `Env`. `Env` counts the model calls and records every sleep. The imperative
methods are proved equal to specification functions:

- `Respond` to `RespondSpec`, `SupervisorNode` and `RouteNode` to `RouteSpec`, `RunRefinement`
  to `RefineFrom`, `CallWorker` and `WorkerNode` to `WorkerFrom`, `QuestionPhase` to `PhaseFrom`,
  `RunOptimized` to `Saved`.
- `WorkerFrom` runs a worker's refinement subgraph with `RefineFrom` on the worker's input log.
- `PhaseFrom` routes with `RouteSpec` and runs each chosen worker through `WorkerFrom`, within the
  node budget.

The properties are proved as lemmas about those functions. The graph loops are tied to them as
follows:

- `QuestionPhase` ends in the state `PhaseFrom` computes. The list it hands on is its old list
  folded through the updates of the worker steps `PhaseFrom` ran (`PhaseQuestions`,
  `QuestionsFold`, `WorkerUpdates`).
- `AnswerPhase` backs each answer with a `RefineFrom` run.
- `RunGraph` returns the list `PhaseFrom` yields for the context message. Each of its answers is
  backed by a `RefineFrom` run.
- For each example, `RunBatch` writes an output that `Fits` it:
  - its questions are the list some run of the question team handed on for that example's
    context (`Asked`);
  - each answer is backed by a refinement run on that question (`Answered`).
  The points of the oracle's script where those runs started are existential, so `Fits` does not
  fix them.

The model follows the code as written, including these points:

- **Extraction rule.** The length test in front of the extraction rule (`question_team.py:124`,
  `:187`, `:251`; `answer_team.py:75`) only assigns a value that the following `if`/`else` always
  overwrites. What counts is: take the last entry when its first tool call is named as the revision,
  otherwise take the one before it.
- **Answer-team revision name.** The answer generator compares against `"QuestionRevision"`
  (`answer_team.py:78`). So its own `AnswerRevision` reply is never taken from the last position.
- **Errors in the batch loop.** `main.py` has no `try` around `run_graph`. An error, such as
  exhausted transient retries, ends the whole batch instead of skipping one example.
- **`prepare_example` strip.** It calls `.strip()` but discards the result (`main.py:91`), so
  framed documents keep their trailing blank line.
- **Checker output.** The checker's output is read by the same positional rule, and its removal
  batch goes through `update_questions`. On an empty list, "remove" falls through to the add branch
  (`memory.py:15-22`).

## Model

| member | source | states |
|---|---|---|
| Memory.UpdateQuestionsRemove | src/memory.py:15-17 | remove on a non-empty list keeps exactly the items not in the batch, with their multiplicity and in their order |
| Memory.UpdateQuestionsAdd | src/memory.py:21-22 | any other tag keeps the old list as a prefix and appends the batch items not already present, in batch order, batch duplicates included |
| Memory.UpdateQuestionsRemoveOnEmpty | src/memory.py:15-22 | "remove" on an empty list falls through to adding and yields the batch itself |
| Memory.UpdateQuestionsAddToEmpty | src/memory.py:18-22 | adding to an empty list yields the batch as it is |
| Memory.UpdateQuestionsNoDup | src/memory.py:11-22 | duplicate-free list and batch give a duplicate-free result |
| Memory.QuestionsFoldSnoc | src/memory.py:27 | merging one more update into the channel continues the fold of the earlier ones |
| Memory.QuestionsFoldNoDup | src/memory.py:11-22 | through updates with duplicate-free batches, except removals from a non-empty list, a duplicate-free list stays duplicate-free |
| Memory.QuestionsFoldAdds | src/memory.py:18-22 | adds of at most one item each keep the old list as a prefix and grow it by at most one item per update |
| Memory.UpdateQuestionsKeepsBatchDuplicates | src/memory.py:21-22 | dedup is only against the existing list: a new item keeps its count from the batch, so one the batch holds twice leaves a duplicate |
| Memory.UpdateQuestionsAddIdempotent | src/memory.py:21-22 | applying the same add batch twice equals applying it once |
| Memory.UpdateQuestionsAddSelf | src/memory.py:21-22 | re-adding the current list leaves it unchanged (what the answer generator and the top-level graph rely on) |
| Memory.KeepMembers | src/memory.py:16 | the list comprehension keeps exactly the items outside the batch |
| Memory.KeepCounts | src/memory.py:16 | each surviving item keeps its number of occurrences; removed items have none |
| Memory.KeepSubseq | src/memory.py:16 | the survivors keep their relative order |
| Memory.MergeAnswers | src/memory.py:28 | `operator.add` keeps the old answers as a prefix, followed by the new ones |
| Memory.RevisionMirrorsGeneration | src/memory.py:32-152 | each Revision schema has exactly its Generation counterpart's fields (its body is `pass`) under a different name |
| Memory.State.constructor | src/memory.py:25-28 | a graph invoked with an input starts from empty channels merged with the input through the reducers |
| Memory.State.Apply | src/memory.py:25-28 | a node's update appends the messages, passes questions through `update_questions` and concatenates answers |
| AgentUtils.Env.Invoke | src/agent_utils.py:114-120 | one model call returns the oracle's outcome for that call number and log and counts the call |
| AgentUtils.Env.Sleep | src/agent_utils.py:131 | a sleep is recorded and changes nothing else |
| AgentUtils.BackoffBounds | src/agent_utils.py:124-131 | retry k waits between `2^k * 2.0` and `2^k * 2.0 + 1.0` seconds |
| AgentUtils.RequestWithBackoff | src/agent_utils.py:112-135 | the retry loop's result, calls and sleeps are those of the request specification |
| AgentUtils.RequestShape | src/agent_utils.py:112-135 | one request makes one or two calls; the second call and the one sleep happen exactly after a transient error; an escaping error is the last call's, unchanged |
| AgentUtils.Respond | src/agent_utils.py:105-153 | `respond` equals its specification: result, call count, sleeps and the in-place extended log |
| AgentUtils.RespondFromBounds | src/agent_utils.py:110-153 | each remaining attempt makes one or two calls, sleeps at most once and appends at most two log entries; the log only grows |
| AgentUtils.RespondBounds | src/agent_utils.py:105-153 | `respond` calls the model one to four times, sleeps at most twice and only appends to the log |
| AgentUtils.RespondLogEnd | src/agent_utils.py:137-153 | a returned reply leaves the log untouched or ending in a feedback tool message |
| AgentUtils.RespondDelaysBounded | src/agent_utils.py:124-131 | with jitter in `[0, 1]` every requested sleep lasts between 2.0 and 3.0 seconds |
| AgentUtils.RespondValidFirst | src/agent_utils.py:137-140 | a first reply that validates is returned after one call, the log untouched |
| AgentUtils.RespondTwoFailures | src/agent_utils.py:141-153 | two invalid replies each append the reply and a feedback message answering its first call's id; the last raw reply is returned, not raised |
| AgentUtils.RespondInvalidWithoutToolCall | src/agent_utils.py:141-151 | an invalid reply without a tool call raises after the reply alone was appended |
| AgentUtils.RespondTransientTwice | src/agent_utils.py:123-135 | a transient error sleeps once and retries; a second error is re-raised unchanged, log untouched |
| AgentUtils.RespondOtherErrorImmediate | src/agent_utils.py:113-123 | an error outside the four transient kinds propagates at once, without sleeping |
| AgentUtils.RouterChoice | src/agent_utils.py:76-81 | a choice exists exactly when the first tool call is named "Router" with a string `next`; a missing `next` is a lookup error |
| AgentUtils.Normalize | src/agent_utils.py:88-89 | "FINISH" and "" become the end marker; any other choice is kept |
| AgentUtils.RouteCommand | src/agent_utils.py:91 | the supervisor's Command goes to the choice and records it under `next`, with no other update |
| AgentUtils.SupervisorNode | src/agent_utils.py:36-91 | the routing node equals its specification: decision, calls, sleeps and log |
| AgentUtils.RouteCeiling | src/agent_utils.py:56-58 | at 10 questions or 20 log entries the decision is the end, with no model call and the log untouched |
| AgentUtils.RouteFromShape | src/agent_utils.py:60-89 | the attempts never decide "FINISH" or "", only grow the log, and make at most four calls each |
| AgentUtils.RouteShape | src/agent_utils.py:56-91 | a routing decision makes at most 8 model calls, is never "FINISH" or "", and names a worker only below both ceilings |
| AgentUtils.RouteFirstRouterWins | src/agent_utils.py:79-81 | the first attempt that yields a Router call decides: its normalised `next` |
| AgentUtils.RouteSecondRouterWins | src/agent_utils.py:60-89 | after a first attempt without a Router call or with a lookup error, a Router call on the second attempt decides: its normalised `next` |
| AgentUtils.RouteMissesEnd | src/agent_utils.py:60-89 | two attempts that each yield no Router call or a lookup error, in any combination, make the decision the end |
| AgentUtils.RouteOtherErrorRaises | src/agent_utils.py:82-89 | an error other than a lookup error, on the first attempt or on the second after a missed first, is raised by the supervisor |
| Reflection.ChainSchema | src/question_team.py:403-423 | a subgraph chain is bound to a Revision schema exactly for the reflect step |
| Reflection.ReflectMirrorsGenerate | src/memory.py:32-152 | every worker's reflect step is validated against its generate step's fields, under another name |
| Reflection.ShouldContinue | src/question_team.py:319-330 | the subgraph ends exactly on a FINISH recommendation or a log longer than the cap, else reflects |
| Reflection.FinishInsideRecommendationEnds | src/question_team.py:321-323 | "FINISH" anywhere inside the recommendation text ends the refinement |
| Reflection.ExtractMessage | src/question_team.py:123-133 | the result is a model reply: the last entry when its first call is named as the revision, else the one before it; extraction succeeds whenever that entry is a model reply |
| Reflection.ExtractMessageFails | src/question_team.py:127-132 | a last entry that is not a revision and a second-to-last entry that is not a model reply make extraction fail |
| Reflection.RunRefinement | src/question_team.py:308-317 | the subgraph run equals its specification: final log or error, calls, sleeps |
| Reflection.RefineFromEnds | src/question_team.py:308-330 | a run runs at least one generate step; a run that ends well extends its input and ends by the stop rule |
| Reflection.FirstStopSecondLast | src/question_team.py:308-317 | a run that stops at its first generate step leaves the input's last entry or a feedback message just before the reply |
| Reflection.FirstStopExtractionFails | src/question_team.py:123-133 | on an input ending in a non-reply, a first-step stop whose reply is not a revision yields nothing to extract |
| QuestionTeam.ListText | src/question_team.py:171-177 | the header, then one `- {question}` line per question, the whole stripped |
| QuestionTeam.BulletsSplit | src/question_team.py:175-176 | for questions without line breaks, splitting the bullet text on line ends gives back one bullet line per question, in order |
| QuestionTeam.ConformingRevisionYieldsQuestion | src/question_team.py:127-133 | a generate reply right after a conforming revision yields the revised question |
| QuestionTeam.FirstStopYieldsNoQuestion | src/question_team.py:123-149 | a subgraph run that stops at its first generate step yields no question |
| QuestionTeam.GeneratorCommand | src/question_team.py:123-165 | the generator adds exactly the extracted question and announces it; on failure it adds nothing and asks to try again |
| QuestionTeam.GeneratorAddsAtMostOne | src/question_team.py:142-163 | a generator adds at most one question, and only one not already in the list; the old list stays a prefix |
| QuestionTeam.CheckCommand | src/question_team.py:288-299 | the checker returns its note and its batch under the "remove" tag |
| QuestionTeam.CheckOutcome | src/question_team.py:250-286 | a non-empty removal batch is only read from an extracted checker revision |
| QuestionTeam.CheckReadsRevision | src/question_team.py:250-283 | with a complete revision call the batch is the one named and the note carries the removal text, the reflection and the recommendation, unless that is "FINISH" |
| QuestionTeam.CheckFailsBeforeList | src/question_team.py:250-286 | a failure before the list to remove is read removes nothing and reports no edits |
| QuestionTeam.CheckFailsAfterList | src/question_team.py:250-286 | a missing reflection or recommendation after the list is read keeps the list read and reports no edits |
| QuestionTeam.CheckOnEmptyListAdds | src/question_team.py:296 | on an empty list the checker's batch becomes the list |
| QuestionTeam.CheckOnlyRemoves | src/question_team.py:296 | on a non-empty list the checker only removes: the result is an ordered sublist without the batch's items |
| QuestionTeam.CallFirstGenerator | src/question_team.py:115-165 | the node runs the subgraph on the team's log and returns the generator command for its result |
| QuestionTeam.CallNextGenerator | src/question_team.py:167-225 | the current list is appended to the team's log in place, then the subgraph runs on it |
| QuestionTeam.ReadFindings | src/question_team.py:250-286 | reading the checker's subgraph log yields exactly the removal batch and note of its specification |
| QuestionTeam.CallCheckQuestions | src/question_team.py:227-299 | the list is appended in place, the subgraph runs, and the checker command follows from its log |
| QuestionTeam.WorkerCommand | src/question_team.py:104-113 | every worker node's Command goes back to the supervisor with a questions update and no answers |
| QuestionTeam.CallWorker | src/question_team.py:104-299 | a registered worker node makes its input log the team's log (the next generator and the checker first append the current list under their header), runs its refinement subgraph on it from the current counters, and returns its Command for exactly that run's final log, or that run's error; any other name is an error |
| QuestionTeam.WorkerUpdate | src/question_team.py:104-113 | a generator step adds at most one question; a checker step removes the batch it read |
| QuestionTeam.WorkerStepsSnoc | src/question_team.py:104-113 | one more worker step merges its update into the list the earlier steps left |
| QuestionTeam.WorkerStepsNoDup | src/memory.py:11-22 | the list stays duplicate-free unless the checker runs on an empty list and names a batch with a duplicate |
| QuestionTeam.WorkerStepsGenerate | src/memory.py:18-22 | with only generator steps the list only grows, by at most one question per step |
| QuestionTeam.WorkerFrom | src/question_team.py:115-299 | a worker node's run only extends the log; on success the step is that worker's and the list is the old list with the step's questions update merged in; on an error the list is unchanged |
| QuestionTeam.PhaseFromFold | src/question_team.py:104-113 | from any point of the team's graph, the list handed on is the start list folded through all worker steps, every step is a worker node's, the steps so far are kept and the log only grows |
| QuestionTeam.PhaseFromFoldWorker | src/question_team.py:104-113 | the same, from the point where the routing node chose a worker |
| QuestionTeam.PhaseQuestions | src/question_team.py:104-113 | the list the team's graph hands on is its start list folded through the updates of the worker steps it ran |
| QuestionTeam.PhaseNoDup | src/memory.py:11-22 | the team hands on a duplicate-free list when it starts from one, unless the checker runs on an empty list and names a batch with a duplicate |
| QuestionTeam.PhaseGenerate | src/memory.py:18-22 | a team run with only generator steps keeps its start list as a prefix and adds at most one question per step |
| QuestionTeam.RouteNode | src/agent_utils.py:56-91 | the routing node's decision, its log, call count and sleeps are the routing specification's; the questions and answers are untouched |
| QuestionTeam.WorkerNode | src/question_team.py:104-299 | a worker node's execution ends in the state `WorkerFrom` computes: its log, counters and question list, with the subgraph's final log as the step's response, or that run's error and the list unchanged |
| QuestionTeam.QuestionPhase | src/question_team.py:104-113 | the team's graph run equals `PhaseFrom`: result, log, counters, question list and the worker steps run; the list handed on is the old list folded through those steps' updates, a route back to the supervisor routes again, the log only grows and the answers are untouched |
| AnswerTeam.CheckAnswerExplanation | src/answer_team.py:11-29 | true exactly when neither lower-cased text contains any of the ten target phrases |
| AnswerTeam.GuardIgnoresCase | src/answer_team.py:24-25 | lower-casing the texts first does not change the verdict |
| AnswerTeam.GuardRejectsTarget | src/answer_team.py:26-28 | a target phrase anywhere in the lower-cased answer rejects it |
| AnswerTeam.AnswerRoute | src/answer_team.py:50-55 | the end exactly when there are as many answers as questions, else the answer generator |
| AnswerTeam.ExtractAnswerReadsRevision | src/answer_team.py:74-86 | a log ending in a generation reply is read at its second-to-last entry |
| AnswerTeam.AnswerRevisionNotTakenLast | src/answer_team.py:78-81 | the answer subgraph's own revision reply is never taken from the last position |
| AnswerTeam.FirstStopYieldsNoAnswer | src/answer_team.py:68-86 | a subgraph run that stops at its first generate step yields no answer |
| AnswerTeam.AnswerCommand | src/answer_team.py:106-132 | an answer is added exactly when extraction worked and the guard passed; the questions are re-added unchanged |
| AnswerTeam.AnswerCommandKeepsQuestions | src/answer_team.py:115-129 | every update the answer generator returns leaves the question list as it was |
| AnswerTeam.CallAnswerGenerator | src/answer_team.py:57-132 | out of range, nothing runs; otherwise the subgraph runs on the context and the next question, and the team's log is not touched |
| AnswerTeam.AnswerRound | src/answer_team.py:57-132 | one round keeps the questions, only grows the log, and adds at most the next answer, backed by the oracle's refinement run on the context and that question |
| AnswerTeam.AnswerPhase | src/answer_team.py:43-55 | a phase that ends well answers every question, answer i is what the oracle's refinement run on question i yielded, and the questions are unchanged |
| Prepare.DocumentPlacement | src/main.py:88-90 | document i is the (i+1)-th block, labelled i+1, after exactly the blocks before it |
| Prepare.DocumentsEndBlank | src/main.py:90-92 | prepared documents end with a blank line, because the strip result is discarded |
| Prepare.PrepareExample | src/main.py:84-92 | a string is used as it is; documents are framed and numbered from 1 |
| Prepare.GetData | src/main.py:94-97 | one prepared example per data line, in order |
| Pipeline.CallQuestionSupervisor | src/main.py:50-58 | the question team runs as `PhaseFrom` on the top-level log; its error is raised, and otherwise its first log entry (the top-level log's first entry when that is non-empty) and its list under the "add" tag are handed on, or an IndexError when its log is empty |
| Pipeline.CallAnswerSupervisor | src/main.py:60-70 | the answer team's first log entry, the question list unchanged under the "add" tag, and one answer per question, each backed by a refinement run |
| Pipeline.AskNode | src/main.py:50-58 | the top-level question node's run: the team's list, equal to `PhaseFrom`'s, is merged into the empty top-level list, the first log entry and the answers stay |
| Pipeline.AnswerNode | src/main.py:60-70 | the top-level answer node's run: the question list stays and one answer per question is merged in, each backed by a refinement run on the first log entry and that question |
| Pipeline.RunGraph | src/main.py:73-80 | on success the questions are the list `PhaseFrom` yields for the context message, folded from its worker steps, there are as many answers as questions, and answer i is what the oracle's refinement run on the context and question i yielded; an error of the question team is the graph's error |
| Pipeline.OutputNameInjective | src/main.py:121 | distinct examples get distinct output files |
| Pipeline.RunBatch | src/main.py:120-131 | existing files are never rewritten; each written file holds its own example's context, the questions some run of the question team handed on for it, and for every question the answer the oracle's refinement run on that example and question yielded; on success every example has a file |
| Pipeline.FitsByRuns | src/main.py:120-131 | the question team's run and the refinement runs `run_graph` reports for an example show that the output written from its result fits that example |
| Pipeline.WriteStep | src/main.py:120-131 | writing one example's file keeps every other example's file fitting its own example |
| OptimizedQag.SampleTextSplits | optimized_qag_openai.py:48-51 | texts without spaces are recovered from the joined sample text |
| OptimizedQag.JsonSpan | optimized_qag_openai.py:94-101 | a non-empty span runs from a `{` to a `}`; the span is empty exactly when the last `}` precedes the first `{` |
| OptimizedQag.JsonSpanFound | optimized_qag_openai.py:97-100 | a span is taken exactly when both braces occur |
| OptimizedQag.SpanBetween | optimized_qag_openai.py:97-101 | with the first `{` at i and the last `}` at j after it, the span is `s[i..j+1]` |
| OptimizedQag.FilterMembers | optimized_qag_openai.py:142-144 | the kept lines are exactly those the test accepts |
| OptimizedQag.FilterInOrder | optimized_qag_openai.py:142-144 | the kept lines keep their order |
| OptimizedQag.QuestionsOfPiecesWellFormed | optimized_qag_openai.py:135-144 | every kept line is stripped, non-empty, free of line breaks and ends in `?` |
| OptimizedQag.QuestionsOfPiecesComplete | optimized_qag_openai.py:135-144 | no piece whose stripped form ends in `?` is missed |
| OptimizedQag.FallbackQuestionsWellFormed | optimized_qag_openai.py:133-144 | each fallback question is one stripped line of the reply ending in `?` |
| OptimizedQag.FallbackQuestionsComplete | optimized_qag_openai.py:133-144 | every reply line that ends in `?` once stripped is a fallback question |
| OptimizedQag.FallbackQuestionsInOrder | optimized_qag_openai.py:142-144 | the fallback questions keep the order of the reply's lines |
| OptimizedQag.StripLines | optimized_qag_openai.py:135 | the loop yields the stripped non-blank pieces, in order |
| OptimizedQag.KeepQuestions | optimized_qag_openai.py:142-144 | the loop yields the lines ending in `?`, in order |
| OptimizedQag.FallbackQuestions | optimized_qag_openai.py:133-144 | the fallback's questions are the reply's non-blank stripped lines that end in `?` |
| OptimizedQag.Processed | optimized_qag_openai.py:92-160 | a saved record carries the sample's id and text, one API call, and fields `len` accepts |
| OptimizedQag.ProcessedFailsIff | optimized_qag_openai.py:102-107 | handling fails exactly when a decoded span is not an object or one of its fields is rejected by `len` |
| OptimizedQag.FallbackRecordShape | optimized_qag_openai.py:149-156 | a record with the raw reply is the fallback record: the `?` lines, no answers, the stripped reply |
| OptimizedQag.NoBracesFallsBack | optimized_qag_openai.py:127-156 | a reply without both braces is saved by the fallback |
| OptimizedQag.WrappedObjectSaved | optimized_qag_openai.py:97-119 | a braced object in the reply is decoded and its two fields are saved as they are |
| OptimizedQag.ProcessResponse | optimized_qag_openai.py:92-162 | the reply handling equals its specification |
| OptimizedQag.SampleNameInjective | optimized_qag_openai.py:121 | distinct samples get distinct output files |
| OptimizedQag.RunOptimized | optimized_qag_openai.py:44-166 | the files written are those of the samples, and each sample's file exists exactly when it saved a record, holding that record |
| Text.TrimStartDropsSpaces | src/main.py:75 | `strip` drops only whitespace at the front |
| Text.TrimEndDropsSpaces | src/main.py:75 | `strip` drops only whitespace at the back |
| Text.ContainsIff | src/answer_team.py:27 | `sub in s` holds exactly when `sub` occurs at some position of `s` |
| Text.JoinSplit | optimized_qag_openai.py:49 | joining the pieces of a split with the separator gives the string back |
| Text.SplitJoin | optimized_qag_openai.py:49 | separator-free pieces are recovered by splitting their join |
| Text.Find | optimized_qag_openai.py:97 | the first index holding the character, or -1 when there is none |
| Text.RFind | optimized_qag_openai.py:98 | the last index holding the character, or -1 when there is none |
| Text.NatToStringInjective | src/main.py:121 | distinct numbers print differently |

## Left out

- The language model, the output validator (`PydanticToolsParser`), `schema_json()`, `random.uniform` and `time.sleep` are oracle parameters of `Env`. Prompts and instruction texts are not modelled.
- The JSON decoder of `optimized_qag_openai.py` is a `decode` parameter, and `model.invoke` is an `invoke` parameter. When it returns nothing, the call raised.
- Logging, `print`, `tqdm`, reading configuration (`get_config`, `src/utils.py`), reading the data file and writing JSON files are I/O. Written files are modelled as a map from file name to content.
- `parallel_qag_agent` (the thread-pool mode) is concurrency and is not part of this model.
- LangGraph's `add_messages` replaces a message whose id is already in the log. Here messages are merged by appending. This differs on two kinds of path:
  - **Top-level hand-offs.** `call_question_supervisor` and `call_answer_supervisor` (`main.py:56`, `:67`) return the team log's first entry. That entry is the top-level log's own first message with its id, so LangGraph replaces it and the top-level log stays `[context]`. In the model, `AskNode` and `AnswerNode` append it: the log becomes `[context, context]` and then `[context, context, context]`, and the answer team runs on a two-entry log. No output changes: the hand-offs read only the first entry, which is the same in both, and the answer generator cuts its log back to that entry (`answer_team.py:68`).
  - **Refinement subgraph.** After two failed validations, the reply `respond` returns is already in the log, appended in place before its feedback. LangGraph then keeps the log ending `[.., reply, feedback]`, while the model's log ends `[.., reply, feedback, reply]`. On that path the log caps of 10 and 6 entries, the stop rule and extraction all see one entry more.
- The supervisor's `{"next": goto}` update is kept in `Command` but merged into no channel.
- `Messages.StrArg`, `Messages.ListArg`, `AgentUtils.RouterChoice`: a tool-call argument of the wrong JSON type is treated as a failed lookup. Python would pass it on, for example a string `questions_to_remove` as the batch. A reply that passed validation never has one.
- `Prepare.PrepareExample`: only a string or a list of strings is modelled. The f-string formats list items of any JSON type (numbers, `null`, objects), which the model does not. A scalar `text` raises at `len()`, a non-empty object raises a `KeyError` at `text[0]`, and an empty object gives "". None of these is modelled.
- `OptimizedQag.SampleText`: only a string or a list of strings is modelled. `' '.join` raises on a non-string list item, and the preview slice raises on any other `text`. Both are outside the `try`.
- `OptimizedQag.Json`: JSON numbers are integers. Floating point is not modelled.
- `Text.Lower`: lower-cases ASCII letters only. Python's full Unicode case mapping is not modelled.
- `Text.IsSpace`: covers the characters `str.isspace` accepts. No Unicode database is consulted beyond that list.
- `QuestionTeam.QuestionPhase`, `AnswerTeam.AnswerPhase`: LangGraph's recursion limit (50 steps, `main.py:76`) is the `budget` parameter, and both phases get 50. A route back to the supervisor need not grow the log, so the limit can stop the question phase. The model promises no bound on the question phase's node executions other than the budget.
- `Pipeline.RunBatch`: `Fits` states the question team's run and each answer's refinement run with an existential start in the oracle's script. It does not say that the answer runs start where the question run ended, nor that the examples consume the script one after another. `RunGraph`'s own contract fixes the question run's start.
- `Pipeline.RunGraph`: the top-level graph's three channels are modelled, but the recursion limit of the top-level graph itself is not.
- The `elif not update` branch of `update_questions` (`memory.py:18-19`) is dead: the update is always a two-item tuple.
- `Memory.UpdateQuestions`: its own contract only bounds the length. Its behaviour is stated by the lemmas in the table.
