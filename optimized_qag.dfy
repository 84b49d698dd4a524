/**
 * The single-call generator (`optimized_qag_openai.py`, sequential mode): each sample's text
 * is sent to the model once; the reply's brace-delimited span is decoded as JSON and its
 * `questions` and `answers` are saved, and when no JSON can be found or decoded the reply's
 * lines ending in `?` are saved as questions instead. A sample whose call or handling raises
 * is skipped.
 */
module OptimizedQag {
  import opened Base
  import opened Messages
  import opened Memory
  import opened Text
  import opened Prepare
  import opened Pipeline

  const QuestionsKey := "questions"
  const AnswersKey := "answers"
  const SamplePrefix := "optimized_sample_"
  const SampleSuffix := ".json"
  /** Every saved record says it used one model call. */
  const ApiCallsUsed: nat := 1

  /** A decoded JSON value (numbers kept as integers). */
  datatype Json =
    | JsonNull
    | JsonBool(b: bool)
    | JsonNumber(n: int)
    | JsonString(s: string)
    | JsonArray(items: seq<Json>)
    | JsonObject(fields: map<string, Json>)

  /** What one output file holds; `rawResponse` is present only on the fallback path. */
  datatype SampleRecord = SampleRecord(
    sampleId: nat, text: string, questions: Json, answers: Json, rawResponse: Option<string>, apiCallsUsed: nat)

  // ---------------------------------------------------------------------------------------
  // The sample text

  /** A list of texts is joined with single spaces; a string is used as it is. */
  function SampleText(t: InputText): string {
    match t
    case Single(s) => s
    case Documents(texts) => Join(texts, ' ')
  }

  /** Texts without spaces are recovered from the joined text by splitting on spaces. */
  lemma SampleTextSplits(texts: seq<string>)
    requires |texts| >= 1
    requires forall k :: 0 <= k < |texts| ==> ' ' !in texts[k]
    ensures Split(SampleText(Documents(texts)), ' ') == texts
  {
    SplitJoin(texts, ' ');
  }

  // ---------------------------------------------------------------------------------------
  // The JSON span

  /**
   * From the first `{` to the last `}` inclusive, when both occur (empty when the last `}`
   * comes before the first `{`); nothing when either is missing.
   */
  function JsonSpan(s: string): (r: Option<string>)
    ensures r.Some? && r.value != "" ==> r.value[0] == '{' && r.value[|r.value| - 1] == '}'
    ensures r.Some? ==> (r.value == "" <==> RFind(s, '}') < Find(s, '{'))
  {
    var start := Find(s, '{');
    var end := RFind(s, '}') + 1;
    if start != -1 && end != 0 then Some(Slice(s, start, end)) else None
  }

  /** A span is taken exactly when both braces occur. */
  lemma JsonSpanFound(s: string)
    ensures JsonSpan(s).Some? <==> '{' in s && '}' in s
  {
    if '{' in s {
      var i :| 0 <= i < |s| && s[i] == '{';
      assert Find(s, '{') != -1;
    }
    if '}' in s {
      var j :| 0 <= j < |s| && s[j] == '}';
      assert RFind(s, '}') != -1;
    }
  }

  /** With the first `{` at `i` and the last `}` at `j` after it, the span is `s[i..j+1]`. */
  lemma SpanBetween(s: string, i: nat, j: nat)
    requires i < j < |s|
    requires s[i] == '{' && forall k :: 0 <= k < i ==> s[k] != '{'
    requires s[j] == '}' && forall k :: j < k < |s| ==> s[k] != '}'
    ensures JsonSpan(s) == Some(s[i..j + 1])
  {
    assert Find(s, '{') == i;
    assert RFind(s, '}') == j;
  }

  // ---------------------------------------------------------------------------------------
  // The line fallback

  /** One line as the fallback keeps it: non-empty, without surrounding whitespace. */
  predicate IsStrippedLine(x: string) {
    x != "" && !IsSpace(x[0]) && !IsSpace(x[|x| - 1])
  }

  /** `[x for x in xs if keep(x)]` */
  function Filter(xs: seq<string>, keep: string -> bool): seq<string>
    decreases |xs|
  {
    if |xs| == 0 then [] else (if keep(xs[0]) then [xs[0]] else []) + Filter(xs[1..], keep)
  }

  lemma {:induction false} FilterSnoc(xs: seq<string>, x: string, keep: string -> bool)
    ensures Filter(xs + [x], keep) == Filter(xs, keep) + (if keep(x) then [x] else [])
    decreases |xs|
  {
    if |xs| == 0 {
      assert xs + [x] == [x];
    } else {
      assert (xs + [x])[1..] == xs[1..] + [x];
      FilterSnoc(xs[1..], x, keep);
    }
  }

  /** The kept items are exactly the items `keep` accepts. */
  lemma {:induction false} FilterMembers(xs: seq<string>, keep: string -> bool, y: string)
    ensures y in Filter(xs, keep) <==> y in xs && keep(y)
    decreases |xs|
  {
    if |xs| > 0 {
      FilterMembers(xs[1..], keep, y);
      assert y in xs <==> y == xs[0] || y in xs[1..];
    }
  }

  /** The kept items keep their order. */
  lemma {:induction false} FilterInOrder(xs: seq<string>, keep: string -> bool)
    ensures IsSubseq(Filter(xs, keep), xs)
    decreases |xs|
  {
    if |xs| > 0 {
      var rest := Filter(xs[1..], keep);
      FilterInOrder(xs[1..], keep);
      if keep(xs[0]) {
        assert Filter(xs, keep) == [xs[0]] + rest;
        assert ([xs[0]] + rest)[1..] == rest;
      } else {
        assert Filter(xs, keep) == rest;
      }
    }
  }

  predicate NonBlank(line: string) {
    line != ""
  }

  predicate IsQuestionLine(line: string) {
    EndsWith(line, '?')
  }

  /** `[piece.strip() for piece in pieces]` */
  function StripEach(pieces: seq<string>): (r: seq<string>)
    ensures |r| == |pieces|
    ensures forall k :: 0 <= k < |pieces| ==> r[k] == Strip(pieces[k])
  {
    seq(|pieces|, k requires 0 <= k < |pieces| => Strip(pieces[k]))
  }

  /** `[line.strip() for line in response_text.split('\n') if line.strip()]` */
  function ReplyLines(content: string): seq<string> {
    Filter(StripEach(Split(Strip(content), '\n')), NonBlank)
  }

  /** The fallback questions of a reply. */
  function FallbackLines(content: string): seq<string> {
    Filter(ReplyLines(content), IsQuestionLine)
  }

  /** A character the input lacks is not in its stripped form either. */
  lemma StripKeepsOut(s: string, c: char)
    requires c !in s
    ensures c !in Strip(s)
  {
    var t := TrimStart(s);
    assert t == s[|s| - |t|..];
    assert Strip(s) == t[..|Strip(s)|];
  }

  /** The `?` lines kept from pieces without line breaks are well-formed single lines. */
  lemma QuestionsOfPiecesWellFormed(pieces: seq<string>, q: string)
    requires forall k :: 0 <= k < |pieces| ==> '\n' !in pieces[k]
    requires q in Filter(Filter(StripEach(pieces), NonBlank), IsQuestionLine)
    ensures EndsWith(q, '?') && IsStrippedLine(q) && '\n' !in q
  {
    var stripped := StripEach(pieces);
    FilterMembers(Filter(stripped, NonBlank), IsQuestionLine, q);
    FilterMembers(stripped, NonBlank, q);
    var k :| 0 <= k < |stripped| && stripped[k] == q;
    StripKeepsOut(pieces[k], '\n');
  }

  /** No piece whose stripped form ends in `?` is missed. */
  lemma QuestionsOfPiecesComplete(pieces: seq<string>, k: nat)
    requires k < |pieces| && EndsWith(Strip(pieces[k]), '?')
    ensures Strip(pieces[k]) in Filter(Filter(StripEach(pieces), NonBlank), IsQuestionLine)
  {
    var stripped := StripEach(pieces);
    var line := Strip(pieces[k]);
    assert stripped[k] == line;
    FilterMembers(stripped, NonBlank, line);
    FilterMembers(Filter(stripped, NonBlank), IsQuestionLine, line);
  }

  /**
   * Each fallback question is one line of the reply: non-empty, with no surrounding
   * whitespace, no line break inside, and ending in `?`.
   */
  lemma FallbackQuestionsWellFormed(content: string, q: string)
    requires q in FallbackLines(content)
    ensures EndsWith(q, '?') && IsStrippedLine(q) && '\n' !in q
  {
    QuestionsOfPiecesWellFormed(Split(Strip(content), '\n'), q);
  }

  /** Every line of the reply that ends in `?` once stripped is a fallback question. */
  lemma FallbackQuestionsComplete(content: string, k: nat)
    requires var pieces := Split(Strip(content), '\n');
      k < |pieces| && EndsWith(Strip(pieces[k]), '?')
    ensures Strip(Split(Strip(content), '\n')[k]) in FallbackLines(content)
  {
    QuestionsOfPiecesComplete(Split(Strip(content), '\n'), k);
  }

  /** The fallback questions keep the order of the reply's lines. */
  lemma FallbackQuestionsInOrder(content: string)
    ensures IsSubseq(FallbackLines(content), ReplyLines(content))
  {
    FilterInOrder(ReplyLines(content), IsQuestionLine);
  }

  /** `lines`: the stripped non-blank lines, one piece at a time. */
  method StripLines(pieces: seq<string>) returns (lines: seq<string>)
    ensures lines == Filter(StripEach(pieces), NonBlank)
  {
    ghost var stripped := StripEach(pieces);
    lines := [];
    for i := 0 to |pieces|
      invariant lines == Filter(stripped[..i], NonBlank)
    {
      FilterSnoc(stripped[..i], stripped[i], NonBlank);
      assert stripped[..i + 1] == stripped[..i] + [stripped[i]];
      var line := Strip(pieces[i]);
      if line != "" {
        lines := lines + [line];
      }
    }
    assert stripped[..|pieces|] == stripped;
  }

  /** `for line in lines: if line.endswith('?'): questions.append(line)` */
  method KeepQuestions(lines: seq<string>) returns (questions: seq<string>)
    ensures questions == Filter(lines, IsQuestionLine)
  {
    questions := [];
    for i := 0 to |lines|
      invariant questions == Filter(lines[..i], IsQuestionLine)
    {
      FilterSnoc(lines[..i], lines[i], IsQuestionLine);
      assert lines[..i + 1] == lines[..i] + [lines[i]];
      if EndsWith(lines[i], '?') {
        questions := questions + [lines[i]];
      }
    }
    assert lines[..|lines|] == lines;
  }

  /** The text fallback: the stripped reply's non-blank stripped lines, then those ending in `?`. */
  method FallbackQuestions(content: string) returns (questions: seq<string>)
    ensures questions == FallbackLines(content)
  {
    var lines := StripLines(Split(Strip(content), '\n'));
    questions := KeepQuestions(lines);
  }

  // ---------------------------------------------------------------------------------------
  // One reply

  /** `d.get(key, default)` */
  function Get(fields: map<string, Json>, key: string, default: Json): Json {
    if key in fields then fields[key] else default
  }

  /** A value `len` accepts. */
  predicate Sized(v: Json) {
    v.JsonString? || v.JsonArray? || v.JsonObject?
  }

  function StringArray(items: seq<string>): (r: Json)
    ensures r.JsonArray? && |r.items| == |items|
    ensures forall k :: 0 <= k < |items| ==> r.items[k] == JsonString(items[k])
  {
    JsonArray(seq(|items|, k requires 0 <= k < |items| => JsonString(items[k])))
  }

  /** The record saved by the fallback path. */
  function FallbackRecord(i: nat, text: string, content: string): SampleRecord {
    SampleRecord(i, text, StringArray(FallbackLines(content)), JsonArray([]), Some(Strip(content)), ApiCallsUsed)
  }

  /**
   * The reply's handling: a decoded JSON object gives its `questions` and `answers` (an
   * empty list when missing); a value that is not an object fails the lookup, a field
   * `len` rejects fails the count. No span, or a span that does not decode, takes the
   * fallback.
   */
  function Processed(i: nat, text: string, content: string, decode: string -> Option<Json>): (r: Result<SampleRecord, Error>)
    ensures r.Ok? ==> r.value.sampleId == i && r.value.text == text && r.value.apiCallsUsed == ApiCallsUsed
    ensures r.Ok? ==> Sized(r.value.questions) && Sized(r.value.answers)
  {
    var span := JsonSpan(Strip(content));
    if span.Some? && decode(span.value).Some? then
      var v := decode(span.value).value;
      if !v.JsonObject? then Err(AttributeError)
      else
        var questions := Get(v.fields, QuestionsKey, JsonArray([]));
        var answers := Get(v.fields, AnswersKey, JsonArray([]));
        if !Sized(questions) || !Sized(answers) then Err(TypeError)
        else Ok(SampleRecord(i, text, questions, answers, None, ApiCallsUsed))
    else Ok(FallbackRecord(i, text, content))
  }

  /**
   * Handling fails exactly when a span decodes to something that is not an object, or to an
   * object whose `questions` or `answers` field `len` rejects; every other reply is saved.
   */
  lemma ProcessedFailsIff(i: nat, text: string, content: string, decode: string -> Option<Json>)
    ensures Processed(i, text, content, decode).Err? <==> (
      var span := JsonSpan(Strip(content));
      span.Some? && decode(span.value).Some? &&
      (!decode(span.value).value.JsonObject? ||
       !Sized(Get(decode(span.value).value.fields, QuestionsKey, JsonArray([]))) ||
       !Sized(Get(decode(span.value).value.fields, AnswersKey, JsonArray([])))))
  {
  }

  /** A record with the raw reply is the fallback record: no answers, the stripped reply, the `?` lines. */
  lemma FallbackRecordShape(i: nat, text: string, content: string, decode: string -> Option<Json>)
    ensures var r := Processed(i, text, content, decode);
      r.Ok? && r.value.rawResponse.Some? ==> r.value == FallbackRecord(i, text, content)
  {
    var span := JsonSpan(Strip(content));
    if !(span.Some? && decode(span.value).Some?) {
      assert Processed(i, text, content, decode) == Ok(FallbackRecord(i, text, content));
    }
  }

  /** A reply without both braces is saved by the fallback, with no answers and the stripped reply kept. */
  lemma NoBracesFallsBack(i: nat, text: string, content: string, decode: string -> Option<Json>)
    requires !('{' in Strip(content) && '}' in Strip(content))
    ensures var r := Processed(i, text, content, decode);
      && r.Ok? && r.value.rawResponse == Some(Strip(content)) && r.value.answers == JsonArray([])
      && r.value.questions == StringArray(FallbackLines(content))
  {
    JsonSpanFound(Strip(content));
  }

  /** A braced object in the reply is decoded and its two fields saved as they are. */
  lemma WrappedObjectSaved(i: nat, text: string, content: string, decode: string -> Option<Json>,
                           start: nat, end: nat, questions: Json, answers: Json)
    requires var s := Strip(content);
      && start < end < |s| && s[start] == '{' && s[end] == '}'
      && (forall k :: 0 <= k < start ==> s[k] != '{') && (forall k :: end < k < |s| ==> s[k] != '}')
      && decode(s[start..end + 1]) == Some(JsonObject(map[QuestionsKey := questions, AnswersKey := answers]))
    requires Sized(questions) && Sized(answers)
    ensures Processed(i, text, content, decode) == Ok(SampleRecord(i, text, questions, answers, None, ApiCallsUsed))
  {
    SpanBetween(Strip(content), start, end);
  }

  /** The reply handling inside one sample's `try`. */
  method ProcessResponse(i: nat, text: string, content: string, decode: string -> Option<Json>)
    returns (r: Result<SampleRecord, Error>)
    ensures r == Processed(i, text, content, decode)
  {
    var responseText := Strip(content);
    var start := Find(responseText, '{');
    var end := RFind(responseText, '}') + 1;
    ghost var span := JsonSpan(responseText);
    assert span.Some? <==> start != -1 && end != 0;
    if start != -1 && end != 0 {
      var decoded := decode(Slice(responseText, start, end));
      assert decoded == decode(span.value);
      if decoded.Some? {
        var v := decoded.value;
        if !v.JsonObject? {
          return Err(AttributeError);
        }
        var questions := Get(v.fields, QuestionsKey, JsonArray([]));
        var answers := Get(v.fields, AnswersKey, JsonArray([]));
        if !Sized(questions) || !Sized(answers) {
          return Err(TypeError);
        }
        return Ok(SampleRecord(i, text, questions, answers, None, ApiCallsUsed));
      }
    }
    assert span.None? || decode(span.value).None?;
    var questions := FallbackQuestions(content);
    return Ok(SampleRecord(i, text, StringArray(questions), JsonArray([]), Some(responseText), ApiCallsUsed));
  }

  // ---------------------------------------------------------------------------------------
  // The sample loop

  /** `optimized_sample_{i+1}.json` */
  function SampleName(i: nat): string {
    SamplePrefix + NatToString(i + 1) + SampleSuffix
  }

  /** Distinct samples get distinct output files. */
  lemma SampleNameInjective(i: nat, j: nat)
    requires SampleName(i) == SampleName(j)
    ensures i == j
  {
    var a, b := SampleName(i), SampleName(j);
    assert NatToString(i + 1) == a[|SamplePrefix|..|a| - |SampleSuffix|];
    assert NatToString(j + 1) == b[|SamplePrefix|..|b| - |SampleSuffix|];
    NatToStringInjective(i + 1, j + 1);
  }

  /** The names of the output files of the first `n` samples. */
  function SampleNames(n: nat): set<string> {
    set j | 0 <= j < n :: SampleName(j)
  }

  /** What sample i leaves behind: its record, or nothing when the call or the handling raised. */
  function Saved(i: nat, sample: InputText, invoke: (nat, string) -> Option<string>, decode: string -> Option<Json>): Option<SampleRecord> {
    var text := SampleText(sample);
    match invoke(i, text)
    case None => None
    case Some(content) =>
      match Processed(i, text, content, decode)
      case Ok(record) => Some(record)
      case Err(_) => None
  }

  /** Every file named after a sample holds what that sample saved. */
  predicate SavedFor(written: map<string, SampleRecord>, samples: seq<InputText>,
                     invoke: (nat, string) -> Option<string>, decode: string -> Option<Json>, n: nat)
    requires n <= |samples|
  {
    forall j :: 0 <= j < n ==> Saved(j, samples[j], invoke, decode) == (if SampleName(j) in written then Some(written[SampleName(j)]) else None)
  }

  /** Writing sample i's file leaves the files of the earlier samples as they were. */
  lemma SaveStep(written: map<string, SampleRecord>, samples: seq<InputText>,
                 invoke: (nat, string) -> Option<string>, decode: string -> Option<Json>, i: nat, record: SampleRecord)
    requires i < |samples| && SavedFor(written, samples, invoke, decode, i)
    requires written.Keys <= SampleNames(i)
    requires Saved(i, samples[i], invoke, decode) == Some(record)
    ensures SavedFor(written[SampleName(i) := record], samples, invoke, decode, i + 1)
  {
    var after := written[SampleName(i) := record];
    forall j | 0 <= j < i + 1
      ensures Saved(j, samples[j], invoke, decode) == (if SampleName(j) in after then Some(after[SampleName(j)]) else None)
    {
      if j < i {
        if SampleName(j) == SampleName(i) {
          SampleNameInjective(j, i);
        }
        assert SampleName(j) in after <==> SampleName(j) in written;
      }
    }
  }

  /** A skipped sample leaves the files as they were. */
  lemma SkipStep(written: map<string, SampleRecord>, samples: seq<InputText>,
                 invoke: (nat, string) -> Option<string>, decode: string -> Option<Json>, i: nat)
    requires i < |samples| && SavedFor(written, samples, invoke, decode, i)
    requires written.Keys <= SampleNames(i)
    requires Saved(i, samples[i], invoke, decode).None?
    ensures SavedFor(written, samples, invoke, decode, i + 1)
  {
    if SampleName(i) in written {
      assert SampleName(i) in SampleNames(i);
      var j :| 0 <= j < i && SampleName(i) == SampleName(j);
      SampleNameInjective(i, j);
    }
  }

  /**
   * `optimized_qag_agent`'s loop: every sample is sent once; its record is written to
   * `optimized_sample_{i+1}.json` unless the call or the handling raised, and the loop
   * goes on either way.
   */
  method RunOptimized(samples: seq<InputText>, invoke: (nat, string) -> Option<string>, decode: string -> Option<Json>)
    returns (written: map<string, SampleRecord>)
    ensures written.Keys <= SampleNames(|samples|)
    ensures SavedFor(written, samples, invoke, decode, |samples|)
  {
    written := map[];
    for i := 0 to |samples|
      invariant written.Keys <= SampleNames(i)
      invariant SavedFor(written, samples, invoke, decode, i)
    {
      assert SampleNames(i) <= SampleNames(i + 1);
      var text := SampleText(samples[i]);
      var reply := invoke(i, text);
      if reply.None? {
        SkipStep(written, samples, invoke, decode, i);
        continue;
      }
      var result := ProcessResponse(i, text, reply.value, decode);
      if result.Err? {
        SkipStep(written, samples, invoke, decode, i);
        continue;
      }
      SaveStep(written, samples, invoke, decode, i, result.value);
      written := written[SampleName(i) := result.value];
    }
  }
}
