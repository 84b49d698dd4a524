/**
 * The shared graph state (`OverallState`) and its reducers: the question-list reducer
 * `update_questions`, answers merged by concatenation, messages merged by appending.
 * Also the structured-output schemas a model reply must conform to, and the `Command`
 * a node returns (where to go next and which update to merge).
 */
module Memory {
  import opened Base
  import opened Messages

  const RemoveTag := "remove"
  const AddTag := "add"

  /** No question string occurs twice. */
  predicate NoDup(s: seq<string>) {
    forall i, j :: 0 <= i < j < |s| ==> s[i] != s[j]
  }

  /** `a` is `b` with some items dropped and the rest in their original order. */
  predicate IsSubseq(a: seq<string>, b: seq<string>)
    decreases |b|
  {
    |a| == 0 || (|b| > 0 && ((a[0] == b[0] && IsSubseq(a[1..], b[1..])) || IsSubseq(a, b[1..])))
  }

  /** `[x for x in xs if x not in ys]` */
  function Keep(xs: seq<string>, ys: seq<string>): seq<string>
    decreases |xs|
  {
    if |xs| == 0 then [] else (if xs[0] in ys then [] else [xs[0]]) + Keep(xs[1..], ys)
  }

  lemma {:induction false} KeepMembers(xs: seq<string>, ys: seq<string>)
    ensures forall x :: x in Keep(xs, ys) <==> x in xs && x !in ys
    decreases |xs|
  {
    if |xs| > 0 {
      KeepMembers(xs[1..], ys);
      assert xs == [xs[0]] + xs[1..];
    }
  }

  /** Every occurrence of an item outside `ys` survives, and no occurrence of an item in `ys` does. */
  lemma {:induction false} KeepCounts(xs: seq<string>, ys: seq<string>)
    ensures forall x :: multiset(Keep(xs, ys))[x] == if x in ys then 0 else multiset(xs)[x]
    decreases |xs|
  {
    if |xs| > 0 {
      KeepCounts(xs[1..], ys);
      assert xs == [xs[0]] + xs[1..];
    }
  }

  lemma {:induction false} KeepSubseq(xs: seq<string>, ys: seq<string>)
    ensures IsSubseq(Keep(xs, ys), xs)
    decreases |xs|
  {
    if |xs| > 0 {
      KeepSubseq(xs[1..], ys);
      if xs[0] !in ys {
        assert Keep(xs, ys)[1..] == Keep(xs[1..], ys);
      } else {
        assert Keep(xs, ys) == Keep(xs[1..], ys);
      }
    }
  }

  lemma {:induction false} KeepNoDup(xs: seq<string>, ys: seq<string>)
    requires NoDup(xs)
    ensures NoDup(Keep(xs, ys))
    decreases |xs|
  {
    if |xs| > 0 {
      KeepNoDup(xs[1..], ys);
      KeepMembers(xs[1..], ys);
      assert xs[0] !in xs[1..];
    }
  }

  /** Nothing is dropped when no item of `xs` is in `ys`. */
  lemma {:induction false} KeepNone(xs: seq<string>, ys: seq<string>)
    requires forall x :: x in xs ==> x !in ys
    ensures Keep(xs, ys) == xs
    decreases |xs|
  {
    if |xs| > 0 {
      KeepNone(xs[1..], ys);
      assert xs == [xs[0]] + xs[1..];
    }
  }

  /** Everything is dropped when every item of `xs` is in `ys`. */
  lemma {:induction false} KeepAll(xs: seq<string>, ys: seq<string>)
    requires forall x :: x in xs ==> x in ys
    ensures Keep(xs, ys) == []
    decreases |xs|
  {
    if |xs| > 0 {
      KeepAll(xs[1..], ys);
    }
  }

  /**
   * `update_questions(existing, (tag, batch))`: with a non-empty list and the tag "remove",
   * the items of `existing` not in `batch`; otherwise (any other tag, or an empty list)
   * `existing` followed by the items of `batch` not already in `existing`.
   */
  function UpdateQuestions(existing: seq<string>, tag: string, batch: seq<string>): (r: seq<string>)
    ensures |r| <= |existing| + |batch|
  {
    KeepLength(existing, batch);
    KeepLength(batch, existing);
    if |existing| > 0 && tag == RemoveTag then Keep(existing, batch)
    else existing + Keep(batch, existing)
  }

  lemma {:induction false} KeepLength(xs: seq<string>, ys: seq<string>)
    ensures |Keep(xs, ys)| <= |xs|
    decreases |xs|
  {
    if |xs| > 0 {
      KeepLength(xs[1..], ys);
    }
  }

  /** Remove on a non-empty list: exactly the items not in the batch survive, in their order, with their multiplicity. */
  lemma UpdateQuestionsRemove(existing: seq<string>, batch: seq<string>)
    requires |existing| > 0
    ensures var r := UpdateQuestions(existing, RemoveTag, batch);
      && (forall x :: x in r <==> x in existing && x !in batch)
      && (forall x :: multiset(r)[x] == if x in batch then 0 else multiset(existing)[x])
      && IsSubseq(r, existing)
  {
    KeepMembers(existing, batch);
    KeepCounts(existing, batch);
    KeepSubseq(existing, batch);
  }

  /**
   * Any tag other than "remove" adds: the old list is kept as a prefix and followed by the
   * batch items not already present, in batch order (duplicates inside the batch included).
   */
  lemma UpdateQuestionsAdd(existing: seq<string>, tag: string, batch: seq<string>)
    requires tag != RemoveTag
    ensures var r := UpdateQuestions(existing, tag, batch);
      && existing <= r
      && (forall x :: x in r[|existing|..] <==> x in batch && x !in existing)
      && (forall x :: x !in existing ==> multiset(r[|existing|..])[x] == multiset(batch)[x])
      && IsSubseq(r[|existing|..], batch)
  {
    var r := UpdateQuestions(existing, tag, batch);
    assert r[|existing|..] == Keep(batch, existing);
    KeepMembers(batch, existing);
    KeepCounts(batch, existing);
    KeepSubseq(batch, existing);
  }

  /** "remove" on an empty list falls through to the add branch and yields the removal batch itself. */
  lemma UpdateQuestionsRemoveOnEmpty(batch: seq<string>)
    ensures UpdateQuestions([], RemoveTag, batch) == batch
  {
    KeepNone(batch, []);
  }

  /** Dedup is only against the existing list: duplicate-free inputs give a duplicate-free result. */
  lemma UpdateQuestionsNoDup(existing: seq<string>, tag: string, batch: seq<string>)
    requires NoDup(existing) && NoDup(batch)
    ensures NoDup(UpdateQuestions(existing, tag, batch))
  {
    if |existing| > 0 && tag == RemoveTag {
      KeepNoDup(existing, batch);
    } else {
      var added := Keep(batch, existing);
      KeepNoDup(batch, existing);
      KeepMembers(batch, existing);
      var r := existing + added;
      forall i, j | 0 <= i < j < |r| ensures r[i] != r[j] {
        if j >= |existing| && i < |existing| {
          assert r[j] == added[j - |existing|];
          assert r[j] !in existing;
        }
      }
    }
  }

  /** A list without duplicates holds each string at most once. */
  lemma {:induction false} NoDupCount(s: seq<string>, x: string)
    requires NoDup(s)
    ensures multiset(s)[x] <= 1
  {
    if |s| > 0 {
      assert s == [s[0]] + s[1..];
      assert NoDup(s[1..]) by {
        forall i, j | 0 <= i < j < |s[1..]|
          ensures s[1..][i] != s[1..][j]
        {
          assert s[1..][i] == s[i + 1] && s[1..][j] == s[j + 1];
        }
      }
      NoDupCount(s[1..], x);
      if s[0] == x {
        assert x !in s[1..];
      }
    }
  }

  /**
   * Duplicates inside one add batch are all appended: a new string keeps its count from the
   * batch, so a string the batch holds twice leaves the list with a duplicate.
   */
  lemma UpdateQuestionsKeepsBatchDuplicates(existing: seq<string>, tag: string, batch: seq<string>, x: string)
    requires tag != RemoveTag && x !in existing
    ensures multiset(UpdateQuestions(existing, tag, batch))[x] == multiset(batch)[x]
    ensures multiset(batch)[x] >= 2 ==> !NoDup(UpdateQuestions(existing, tag, batch))
  {
    var r := UpdateQuestions(existing, tag, batch);
    UpdateQuestionsAdd(existing, tag, batch);
    assert r == existing + r[|existing|..];
    if NoDup(r) && multiset(batch)[x] >= 2 {
      NoDupCount(r, x);
    }
  }

  /** Applying the same add batch twice is the same as applying it once. */
  lemma UpdateQuestionsAddIdempotent(existing: seq<string>, tag: string, batch: seq<string>)
    requires tag != RemoveTag
    ensures UpdateQuestions(UpdateQuestions(existing, tag, batch), tag, batch) == UpdateQuestions(existing, tag, batch)
  {
    var once := UpdateQuestions(existing, tag, batch);
    KeepMembers(batch, existing);
    assert forall x :: x in batch ==> x in once;
    KeepAll(batch, once);
    assert once + [] == once;
  }

  /** Re-adding the current list leaves it unchanged. */
  lemma UpdateQuestionsAddSelf(existing: seq<string>)
    ensures UpdateQuestions(existing, AddTag, existing) == existing
  {
    KeepAll(existing, existing);
    assert existing + [] == existing;
  }

  /** Adding to an empty list yields the batch as it is. */
  lemma UpdateQuestionsAddToEmpty(tag: string, batch: seq<string>)
    ensures UpdateQuestions([], tag, batch) == batch
  {
    KeepNone(batch, []);
  }

  /** One `{answer, explanation}` entry of the answers list. */
  datatype AnswerRecord = AnswerRecord(answer: string, explanation: string)

  /** The answers reducer `operator.add`: the old answers stay a prefix, the new ones follow in order. */
  function MergeAnswers(current: seq<AnswerRecord>, added: seq<AnswerRecord>): (r: seq<AnswerRecord>)
    ensures current <= r && r[|current|..] == added
  {
    current + added
  }

  /** The structured-output schemas. */
  datatype Schema =
    | QuestionGeneration | QuestionRevision
    | CheckQuestionsGeneration | CheckQuestionsRevision
    | AnswerGeneration | AnswerRevision

  datatype FieldType = Text | TextList

  function SchemaName(s: Schema): string {
    match s
    case QuestionGeneration => "QuestionGeneration"
    case QuestionRevision => "QuestionRevision"
    case CheckQuestionsGeneration => "CheckQuestionsGeneration"
    case CheckQuestionsRevision => "CheckQuestionsRevision"
    case AnswerGeneration => "AnswerGeneration"
    case AnswerRevision => "AnswerRevision"
  }

  predicate IsRevision(s: Schema) {
    s.QuestionRevision? || s.CheckQuestionsRevision? || s.AnswerRevision?
  }

  /** The class a schema is declared as a subclass of; a Generation class is its own base. */
  function BaseSchema(s: Schema): Schema {
    match s
    case QuestionRevision => QuestionGeneration
    case CheckQuestionsRevision => CheckQuestionsGeneration
    case AnswerRevision => AnswerGeneration
    case _ => s
  }

  /** The fields a class body declares; every Revision class body is `pass`. */
  function DeclaredFields(s: Schema): seq<(string, FieldType)> {
    match s
    case QuestionGeneration => [("question", Text), ("reflection", Text), ("recommendation", Text)]
    case CheckQuestionsGeneration => [("questions_to_remove", TextList), ("reflection", Text), ("recommendation", Text)]
    case AnswerGeneration => [("answer", Text), ("explanation", Text), ("reflection", Text), ("recommendation", Text)]
    case _ => []
  }

  /** The fields a schema has: inherited ones first, then its own. */
  function Fields(s: Schema): seq<(string, FieldType)> {
    if IsRevision(s) then DeclaredFields(BaseSchema(s)) + DeclaredFields(s) else DeclaredFields(s)
  }

  /** Each Revision schema has exactly its Generation counterpart's fields, under a different name. */
  lemma RevisionMirrorsGeneration(s: Schema)
    requires IsRevision(s)
    ensures Fields(s) == Fields(BaseSchema(s))
    ensures !IsRevision(BaseSchema(s)) && SchemaName(s) != SchemaName(BaseSchema(s))
  {
    assert DeclaredFields(s) == [];
  }

  predicate HasType(v: Value, t: FieldType) {
    match t
    case Text => v.Str?
    case TextList => v.Strs?
  }

  /** A tool call that carries exactly the schema's fields, with their types, under the schema's name. */
  predicate Conforms(s: Schema, call: ToolCall) {
    var fields := Fields(s);
    && call.name == SchemaName(s)
    && call.args.Keys == (set k | 0 <= k < |fields| :: fields[k].0)
    && (forall k :: 0 <= k < |fields| ==> HasType(call.args[fields[k].0], fields[k].1))
  }

  /** A `("add" | "remove", batch)` questions update. */
  datatype QuestionsUpdate = QuestionsUpdate(tag: string, batch: seq<string>)

  /** The state update a node returns; `next` is the routing record the supervisors add. */
  datatype Update = Update(
    messages: seq<Message>,
    questions: Option<QuestionsUpdate>,
    answers: Option<seq<AnswerRecord>>,
    next: Option<string>)

  /** A node's result: the node to run next and the update to merge first. */
  datatype Command = Command(goto: string, update: Update)

  function MessagesOnly(messages: seq<Message>): Update {
    Update(messages, None, None, None)
  }

  /** The questions channel after `u` is merged into `questions`. */
  function QuestionsAfter(questions: seq<string>, u: Update): seq<string> {
    match u.questions
    case None => questions
    case Some(q) => UpdateQuestions(questions, q.tag, q.batch)
  }

  function AnswersAfter(answers: seq<AnswerRecord>, u: Update): seq<AnswerRecord> {
    match u.answers
    case None => answers
    case Some(a) => MergeAnswers(answers, a)
  }

  /** The question list after the updates `us` are merged into `questions`, in order. */
  function QuestionsFold(questions: seq<string>, us: seq<QuestionsUpdate>): seq<string> {
    if us == [] then questions
    else
      var last := us[|us| - 1];
      UpdateQuestions(QuestionsFold(questions, us[..|us| - 1]), last.tag, last.batch)
  }

  /** Merging one more update continues the fold. */
  lemma QuestionsFoldSnoc(questions: seq<string>, us: seq<QuestionsUpdate>, u: QuestionsUpdate)
    ensures QuestionsFold(questions, us + [u]) == UpdateQuestions(QuestionsFold(questions, us), u.tag, u.batch)
  {
    assert (us + [u])[..|us|] == us;
  }

  /**
   * A duplicate-free list stays so through updates whose batches are duplicate-free, except
   * removals from a non-empty list, which need not be.
   */
  lemma {:induction false} QuestionsFoldNoDup(questions: seq<string>, us: seq<QuestionsUpdate>)
    requires NoDup(questions)
    requires forall i :: 0 <= i < |us| ==>
      NoDup(us[i].batch) || (us[i].tag == RemoveTag && QuestionsFold(questions, us[..i]) != [])
    ensures NoDup(QuestionsFold(questions, us))
  {
    if us != [] {
      var n := |us| - 1;
      var init := us[..n];
      forall i | 0 <= i < |init|
        ensures NoDup(init[i].batch) || (init[i].tag == RemoveTag && QuestionsFold(questions, init[..i]) != [])
      {
        assert init[..i] == us[..i];
      }
      QuestionsFoldNoDup(questions, init);
      var before := QuestionsFold(questions, init);
      if us[n].tag == RemoveTag && before != [] {
        KeepNoDup(before, us[n].batch);
      } else {
        UpdateQuestionsNoDup(before, us[n].tag, us[n].batch);
      }
    }
  }

  /** Adds of at most one item each only grow the list, by at most one item per update. */
  lemma {:induction false} QuestionsFoldAdds(questions: seq<string>, us: seq<QuestionsUpdate>)
    requires forall i :: 0 <= i < |us| ==> us[i].tag == AddTag && |us[i].batch| <= 1
    ensures var after := QuestionsFold(questions, us);
      questions <= after && |after| <= |questions| + |us|
  {
    if us != [] {
      var n := |us| - 1;
      QuestionsFoldAdds(questions, us[..n]);
      var before := QuestionsFold(questions, us[..n]);
      KeepLength(us[n].batch, before);
    }
  }

  /** `OverallState`: the messages log, the question list and the answers list of one graph run. */
  class State {
    var messages: seq<Message>
    var questions: seq<string>
    var answers: seq<AnswerRecord>

    /** A graph invoked with `input`: every channel starts empty and receives `input` through its reducer. */
    constructor (input: Update)
      ensures messages == input.messages
      ensures questions == QuestionsAfter([], input)
      ensures answers == AnswersAfter([], input)
    {
      messages := input.messages;
      questions := QuestionsAfter([], input);
      answers := AnswersAfter([], input);
    }

    /** Merges a node's update: messages appended, questions through `update_questions`, answers concatenated. */
    method Apply(u: Update)
      modifies this
      ensures messages == old(messages) + u.messages
      ensures questions == QuestionsAfter(old(questions), u)
      ensures answers == AnswersAfter(old(answers), u)
    {
      messages := messages + u.messages;
      questions := QuestionsAfter(questions, u);
      answers := AnswersAfter(answers, u);
    }
  }
}
