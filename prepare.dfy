/**
 * Preparing the examples (`prepare_example` and `get_data` in `main.py`): a data line's text
 * is used as it is, or its documents are framed as numbered blocks and concatenated.
 */
module Prepare {
  import opened Base
  import opened Text

  const DocumentLabel := "Document "
  const LabelEnd := ":\n"
  const BlockEnd := "\n\n"

  /** A data line's "text": one string, or a list of documents. */
  datatype InputText = Single(text: string) | Documents(texts: seq<string>)

  /** `"Document {n}:\n{text}\n\n"` */
  function DocumentBlock(n: nat, text: string): string {
    DocumentLabel + NatToString(n) + LabelEnd + text + BlockEnd
  }

  /** The blocks of `texts`, numbered from `first` on. */
  function FramedFrom(texts: seq<string>, first: nat): string
    decreases |texts|
  {
    if |texts| == 0 then "" else DocumentBlock(first, texts[0]) + FramedFrom(texts[1..], first + 1)
  }

  /** `prepare_example`: a string is used as it is; documents are framed and numbered from 1 (the strip's result is discarded). */
  function Prepared(t: InputText): string {
    match t
    case Single(s) => s
    case Documents(texts) => FramedFrom(texts, 1)
  }

  lemma FramedFromSnoc(texts: seq<string>, text: string, first: nat)
    ensures FramedFrom(texts + [text], first) == FramedFrom(texts, first) + DocumentBlock(first + |texts|, text)
  {
    FramedFromAppend(texts, [text], first);
    assert [text][1..] == [];
  }

  /** Framing a concatenation frames each part, the second numbered on from the first. */
  lemma {:induction false} FramedFromAppend(a: seq<string>, b: seq<string>, first: nat)
    ensures FramedFrom(a + b, first) == FramedFrom(a, first) + FramedFrom(b, first + |a|)
    decreases |a|
  {
    if |a| == 0 {
      assert a + b == b;
    } else {
      var head, rest := DocumentBlock(first, a[0]), FramedFrom(a[1..], first + 1);
      assert (a + b)[1..] == a[1..] + b;
      FramedFromAppend(a[1..], b, first + 1);
      ConcatAssoc(head, rest, FramedFrom(b, first + |a|));
    }
  }

  /** Document i is the (i+1)-th block, labelled i+1, after exactly the blocks of the documents before it. */
  lemma DocumentPlacement(texts: seq<string>, i: nat)
    requires i < |texts|
    ensures Prepared(Documents(texts))
         == FramedFrom(texts[..i], 1) + DocumentBlock(i + 1, texts[i]) + FramedFrom(texts[i + 1..], i + 2)
  {
    assert texts == texts[..i] + texts[i..];
    FramedFromAppend(texts[..i], texts[i..], 1);
    assert texts[i..][1..] == texts[i + 1..];
  }

  /** Prepared documents always end with a blank line: the trailing `"\n\n"` is kept. */
  lemma DocumentsEndBlank(texts: seq<string>)
    requires |texts| > 0
    ensures var p := Prepared(Documents(texts));
      |p| >= 2 && p[|p| - 2..] == BlockEnd
  {
    var n := |texts| - 1;
    assert texts == texts[..n] + [texts[n]];
    FramedFromSnoc(texts[..n], texts[n], 1);
  }

  /** `prepare_example`, with its concatenation loop. */
  method PrepareExample(t: InputText) returns (prepared: string)
    ensures prepared == Prepared(t)
  {
    match t {
      case Single(s) =>
        return s;
      case Documents(texts) =>
        prepared := "";
        for i := 0 to |texts|
          invariant prepared == FramedFrom(texts[..i], 1)
        {
          FramedFromSnoc(texts[..i], texts[i], 1);
          assert texts[..i + 1] == texts[..i] + [texts[i]];
          prepared := prepared + DocumentBlock(i + 1, texts[i]);
        }
        assert texts[..|texts|] == texts;
    }
  }

  /** `get_data` after reading the lines: one prepared example per line, in order. */
  method GetData(lines: seq<InputText>) returns (data: seq<string>)
    ensures |data| == |lines|
    ensures forall i :: 0 <= i < |lines| ==> data[i] == Prepared(lines[i])
  {
    data := [];
    for i := 0 to |lines|
      invariant |data| == i
      invariant forall j :: 0 <= j < i ==> data[j] == Prepared(lines[j])
    {
      var example := PrepareExample(lines[i]);
      data := data + [example];
    }
  }

  /** String concatenation is associative. */
  lemma ConcatAssoc(x: string, y: string, z: string)
    ensures x + (y + z) == (x + y) + z
  {
  }
}
