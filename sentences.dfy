/**
 * Sentence splitting with the pattern `(?<=[.!?])\s+`, shared by the back-end
 * segmenter, the speech model's chunker and the front-end segmenter: the text is
 * cut at every maximal whitespace run that directly follows `.`, `!` or `?`, and
 * the run itself is dropped.
 */
module Sentences {
  import opened Strs

  predicate SentenceEnd(c: char)
  {
    c == '.' || c == '!' || c == '?'
  }

  /** A split point: whitespace preceded by a sentence end (the look-behind fails at 0). */
  predicate BreaksAt(t: string, k: int)
  {
    0 < k < |t| && SentenceEnd(t[k - 1]) && IsSpace(t[k])
  }

  /** The first split point at or after `k`, or `|t|` when there is none. */
  function BreakFrom(t: string, k: nat): (r: nat)
    requires k <= |t|
    ensures k <= r <= |t|
    ensures r < |t| ==> BreaksAt(t, r)
    ensures forall j :: k <= j < r ==> !BreaksAt(t, j)
    decreases |t| - k
  {
    if k == |t| || BreaksAt(t, k) then k else BreakFrom(t, k + 1)
  }

  /** The end of the whitespace run starting at `k`. */
  function SpaceRunEnd(t: string, k: nat): (e: nat)
    requires k <= |t|
    ensures k <= e <= |t|
    ensures AllSpace(t[k..e])
    ensures e == |t| || !IsSpace(t[e])
    decreases |t| - k
  {
    if k == |t| || !IsSpace(t[k]) then k
    else
      var e := SpaceRunEnd(t, k + 1);
      assert t[k..e] == [t[k]] + t[k + 1..e];
      e
  }

  /** Python's `re.split(r'(?<=[.!?])\s+', t)` and JavaScript's `t.split(/(?<=[.!?])\s+/)`. */
  function SplitSentences(t: string): (ss: seq<string>)
    ensures |ss| >= 1
    decreases |t|
  {
    var k := BreakFrom(t, 0);
    if k == |t| then [t]
    else
      var e := SpaceRunEnd(t, k);
      [t[..k]] + SplitSentences(t[e..])
  }

  /** Splitting into sentences only drops whitespace: the words are kept, in order. */
  lemma {:induction false} SentencesKeepWords(t: string)
    ensures WordsOf(SplitSentences(t)) == Words(t)
    decreases |t|
  {
    var k := BreakFrom(t, 0);
    if k == |t| {
      assert WordsOf([t]) == WordsOf([]) + Words(t);
    } else {
      var e := SpaceRunEnd(t, k);
      SentencesKeepWords(t[e..]);
      WordsOfCons(t[..k], SplitSentences(t[e..]));
      CutKeepsWords(t, k, e);
    }
  }

  /** Dropping a whitespace run between two parts keeps the words. */
  lemma CutKeepsWords(t: string, k: nat, e: nat)
    requires k < e <= |t| && AllSpace(t[k..e])
    ensures Words(t) == Words(t[..k]) + Words(t[e..])
  {
    var front, run, back := t[..k], t[k..e], t[e..];
    assert run + back == t[k..];
    assert t == front + t[k..];
    assert IsSpace((run + back)[0]) by {
      assert (run + back)[0] == run[0];
    }
    WordsConcat(front, run + back);
    WordsSkipSpace(run, back);
  }

  /** Every word of a sentence is a word of the text. */
  lemma SentenceWordInText(t: string, i: nat, w: string)
    requires i < |SplitSentences(t)| && w in Words(SplitSentences(t)[i])
    ensures w in Words(t)
  {
    WordsOfMember(SplitSentences(t), i, w);
    SentencesKeepWords(t);
  }
}
