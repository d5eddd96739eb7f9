/**
 * `split_text_into_segments` of back-end/utils/text_utils.py: the segmenter of
 * the streaming reply path. Sentences are packed into segments of at most
 * `maxLength` characters (counting the joining space); a sentence longer than
 * `maxLength` is regrouped word by word under the same rule.
 */
module TextUtils {
  import opened Strs
  import opened Sentences

  /** The loop state: the finished segments and the running segment. */
  datatype Acc = Acc(segments: seq<string>, current: string)

  /** One pass of the word loop (text_utils.py:35-43). */
  function AddWord(acc: Acc, w: string, maxLength: int): Acc
  {
    if |acc.current| + |w| + 1 <= maxLength then
      Acc(acc.segments, if acc.current != "" then acc.current + " " + w else w)
    else
      Acc(acc.segments + [acc.current], w)
  }

  function WordFold(acc: Acc, ws: seq<string>, maxLength: int): Acc
  {
    if |ws| == 0 then acc
    else AddWord(WordFold(acc, ws[..|ws| - 1], maxLength), ws[|ws| - 1], maxLength)
  }

  /** One pass of the sentence loop (text_utils.py:17-50). */
  function AddSentence(acc: Acc, s: string, maxLength: int): Acc
  {
    if |acc.current| + |s| + 1 <= maxLength then
      Acc(acc.segments, if acc.current != "" then acc.current + " " + s else s)
    else
      var flushed := Flush(acc);
      if |s| > maxLength then WordFold(Acc(flushed, ""), Words(s), maxLength)
      else Acc(flushed, s)
  }

  /** The finished segments after the running one is saved, if non-empty. */
  function Flush(acc: Acc): seq<string>
  {
    if acc.current != "" then acc.segments + [acc.current] else acc.segments
  }

  function SentenceFold(ss: seq<string>, maxLength: int): Acc
  {
    if |ss| == 0 then Acc([], "")
    else AddSentence(SentenceFold(ss[..|ss| - 1], maxLength), ss[|ss| - 1], maxLength)
  }

  /** The segments `split_text_into_segments(text, maxLength)` returns. */
  function Segments(text: string, maxLength: int): seq<string>
  {
    if text == "" then []
    else if |text| <= maxLength then [text]
    else
      var acc := SentenceFold(SplitSentences(text), maxLength);
      if acc.current != "" then acc.segments + [acc.current] else acc.segments
  }

  method SplitTextIntoSegments(text: string, maxLength: int) returns (segments: seq<string>)
    ensures segments == Segments(text, maxLength)
  {
    if text == "" || |text| <= maxLength {
      segments := if text != "" then [text] else [];
      return;
    }
    var sentences := SplitSentences(text);
    segments := [];
    var current := "";
    for i := 0 to |sentences|
      invariant Acc(segments, current) == SentenceFold(sentences[..i], maxLength)
    {
      var sentence := sentences[i];
      assert sentences[..i + 1][..i] == sentences[..i];
      if |current| + |sentence| + 1 <= maxLength {
        if current != "" {
          current := current + " " + sentence;
        } else {
          current := sentence;
        }
      } else {
        if current != "" {
          segments := segments + [current];
        }
        if |sentence| > maxLength {
          var words := Words(sentence);
          ghost var flushed := segments;
          var sub := "";
          for j := 0 to |words|
            invariant Acc(segments, sub) == WordFold(Acc(flushed, ""), words[..j], maxLength)
          {
            var word := words[j];
            assert words[..j + 1][..j] == words[..j];
            if |sub| + |word| + 1 <= maxLength {
              if sub != "" {
                sub := sub + " " + word;
              } else {
                sub := word;
              }
            } else {
              segments := segments + [sub];
              sub := word;
            }
          }
          assert words[..|words|] == words;
          current := if sub != "" then sub else "";
        } else {
          current := sentence;
        }
      }
    }
    assert sentences[..|sentences|] == sentences;
    if current != "" {
      segments := segments + [current];
    }
  }

  // ---------------------------------------------------------------------------
  // Short inputs
  // ---------------------------------------------------------------------------

  /** Empty text gives no segment; text within the limit is returned whole. */
  lemma ShortTextIsOneSegment(text: string, maxLength: int)
    ensures text == "" ==> Segments(text, maxLength) == []
    ensures text != "" && |text| <= maxLength ==> Segments(text, maxLength) == [text]
  {
  }

  // ---------------------------------------------------------------------------
  // Length bound: a segment longer than maxLength is a single word
  // ---------------------------------------------------------------------------

  predicate Fits(s: string, maxLength: int)
  {
    |s| <= maxLength || IsWord(s)
  }

  predicate AccFits(acc: Acc, maxLength: int)
  {
    (forall i :: 0 <= i < |acc.segments| ==> Fits(acc.segments[i], maxLength)) && Fits(acc.current, maxLength)
  }

  lemma {:induction false} WordFoldFits(acc: Acc, ws: seq<string>, maxLength: int)
    requires AccFits(acc, maxLength)
    requires forall i :: 0 <= i < |ws| ==> IsWord(ws[i])
    ensures AccFits(WordFold(acc, ws, maxLength), maxLength)
    decreases |ws|
  {
    if |ws| > 0 {
      WordFoldFits(acc, ws[..|ws| - 1], maxLength);
    }
  }

  lemma {:induction false} SentenceFoldFits(ss: seq<string>, maxLength: int)
    requires maxLength >= 0
    ensures AccFits(SentenceFold(ss, maxLength), maxLength)
    decreases |ss|
  {
    if |ss| > 0 {
      var acc := SentenceFold(ss[..|ss| - 1], maxLength);
      var s := ss[|ss| - 1];
      SentenceFoldFits(ss[..|ss| - 1], maxLength);
      if !(|acc.current| + |s| + 1 <= maxLength) && |s| > maxLength {
        WordsAreWords(s);
        WordFoldFits(Acc(Flush(acc), ""), Words(s), maxLength);
      }
    }
  }

  /**
   * Accumulation never passes the limit: every segment has at most `maxLength`
   * characters unless it is a single word that alone exceeds it.
   */
  lemma SegmentsFit(text: string, maxLength: int)
    requires maxLength >= 0
    ensures forall s :: s in Segments(text, maxLength) ==> |s| <= maxLength || IsWord(s)
  {
    if text != "" && |text| > maxLength {
      SentenceFoldFits(SplitSentences(text), maxLength);
    }
  }

  // ---------------------------------------------------------------------------
  // Word preservation
  // ---------------------------------------------------------------------------

  function AccWords(acc: Acc): seq<string>
  {
    WordsOf(acc.segments) + Words(acc.current)
  }

  lemma AddWordWords(acc: Acc, w: string, maxLength: int)
    requires IsWord(w)
    ensures AccWords(AddWord(acc, w, maxLength)) == AccWords(acc) + [w]
  {
    WordsOfWord(w);
    if |acc.current| + |w| + 1 <= maxLength {
      if acc.current != "" {
        WordsSpaceJoin(acc.current, w);
      }
    } else {
      WordsOfAppend(acc.segments, acc.current);
    }
  }

  lemma {:induction false} WordFoldWords(acc: Acc, ws: seq<string>, maxLength: int)
    requires forall i :: 0 <= i < |ws| ==> IsWord(ws[i])
    ensures AccWords(WordFold(acc, ws, maxLength)) == AccWords(acc) + ws
    decreases |ws|
  {
    if |ws| > 0 {
      WordFoldWords(acc, ws[..|ws| - 1], maxLength);
      AddWordWords(WordFold(acc, ws[..|ws| - 1], maxLength), ws[|ws| - 1], maxLength);
      assert ws[..|ws| - 1] + [ws[|ws| - 1]] == ws;
    }
  }

  lemma AddSentenceWords(acc: Acc, s: string, maxLength: int)
    ensures AccWords(AddSentence(acc, s, maxLength)) == AccWords(acc) + Words(s)
  {
    if |acc.current| + |s| + 1 <= maxLength {
      AddSentenceFitsWords(acc, s, maxLength);
    } else {
      AddSentenceFlushWords(acc, s, maxLength);
    }
  }

  lemma AddSentenceFitsWords(acc: Acc, s: string, maxLength: int)
    requires |acc.current| + |s| + 1 <= maxLength
    ensures AccWords(AddSentence(acc, s, maxLength)) == AccWords(acc) + Words(s)
  {
    if acc.current != "" {
      JoinedWords(acc, s, maxLength);
    } else {
      StartedWords(acc, s, maxLength);
    }
  }

  /** Appending a sentence to a non-empty running segment appends its words. */
  lemma JoinedWords(acc: Acc, s: string, maxLength: int)
    requires |acc.current| + |s| + 1 <= maxLength && acc.current != ""
    ensures AccWords(AddSentence(acc, s, maxLength)) == AccWords(acc) + Words(s)
  {
    assert AddSentence(acc, s, maxLength) == Acc(acc.segments, acc.current + " " + s);
    WordsSpaceJoin(acc.current, s);
  }

  /** A sentence that starts the running segment contributes its words. */
  lemma StartedWords(acc: Acc, s: string, maxLength: int)
    requires |acc.current| + |s| + 1 <= maxLength && acc.current == ""
    ensures AccWords(AddSentence(acc, s, maxLength)) == AccWords(acc) + Words(s)
  {
    assert AddSentence(acc, s, maxLength) == Acc(acc.segments, s);
  }

  lemma AddSentenceFlushWords(acc: Acc, s: string, maxLength: int)
    requires |acc.current| + |s| + 1 > maxLength
    ensures AccWords(AddSentence(acc, s, maxLength)) == AccWords(acc) + Words(s)
  {
    FlushWords(acc);
    if |s| > maxLength {
      assert AddSentence(acc, s, maxLength) == WordFold(Acc(Flush(acc), ""), Words(s), maxLength);
      WordsOfSentence(Acc(Flush(acc), ""), s, maxLength);
    } else {
      assert AddSentence(acc, s, maxLength) == Acc(Flush(acc), s);
      FlushedWords(acc, s);
    }
  }

  /** Starting a new running segment after a flush appends the sentence's words. */
  lemma FlushedWords(acc: Acc, s: string)
    ensures AccWords(Acc(Flush(acc), s)) == AccWords(acc) + Words(s)
  {
    FlushWords(acc);
  }

  lemma FlushWords(acc: Acc)
    ensures AccWords(Acc(Flush(acc), "")) == AccWords(acc)
  {
    if acc.current != "" {
      WordsOfAppend(acc.segments, acc.current);
    }
  }

  lemma WordsOfSentence(acc: Acc, s: string, maxLength: int)
    ensures AccWords(WordFold(acc, Words(s), maxLength)) == AccWords(acc) + Words(s)
  {
    WordsAreWords(s);
    var ws := Words(s);
    forall i | 0 <= i < |ws|
      ensures IsWord(ws[i])
    {
      assert ws[i] in ws;
    }
    WordFoldWords(acc, ws, maxLength);
  }

  lemma {:induction false} SentenceFoldWords(ss: seq<string>, maxLength: int)
    ensures AccWords(SentenceFold(ss, maxLength)) == WordsOf(ss)
    decreases |ss|
  {
    if |ss| > 0 {
      SentenceFoldWords(ss[..|ss| - 1], maxLength);
      AddSentenceWords(SentenceFold(ss[..|ss| - 1], maxLength), ss[|ss| - 1], maxLength);
    }
  }

  /**
   * No word is lost, split or reordered: splitting the space-joined segments on
   * whitespace gives the words of the input.
   */
  lemma SegmentsKeepWords(text: string, maxLength: int)
    ensures Words(Join(" ", Segments(text, maxLength))) == Words(text)
  {
    var segs := Segments(text, maxLength);
    WordsOfJoin(segs);
    if text == "" {
    } else if |text| <= maxLength {
      assert WordsOf([text]) == WordsOf([]) + Words(text);
    } else {
      var acc := SentenceFold(SplitSentences(text), maxLength);
      SentenceFoldWords(SplitSentences(text), maxLength);
      SentencesKeepWords(text);
      if acc.current != "" {
        WordsOfAppend(acc.segments, acc.current);
      }
    }
  }

  // ---------------------------------------------------------------------------
  // Non-empty segments
  // ---------------------------------------------------------------------------

  predicate NoEmpty(ss: seq<string>)
  {
    forall i :: 0 <= i < |ss| ==> ss[i] != ""
  }

  lemma {:induction false} WordFoldNoEmpty(acc: Acc, ws: seq<string>, maxLength: int)
    requires NoEmpty(acc.segments)
    requires forall i :: 0 <= i < |ws| ==> |ws[i]| < maxLength
    ensures NoEmpty(WordFold(acc, ws, maxLength).segments)
    decreases |ws|
  {
    if |ws| > 0 {
      WordFoldNoEmpty(acc, ws[..|ws| - 1], maxLength);
    }
  }

  lemma {:induction false} SentenceFoldNoEmpty(ss: seq<string>, maxLength: int)
    requires forall i, w :: 0 <= i < |ss| && w in Words(ss[i]) ==> |w| < maxLength
    ensures NoEmpty(SentenceFold(ss, maxLength).segments)
    decreases |ss|
  {
    if |ss| > 0 {
      var init := ss[..|ss| - 1];
      var s := ss[|ss| - 1];
      var acc := SentenceFold(init, maxLength);
      forall i, w | 0 <= i < |init| && w in Words(init[i])
        ensures |w| < maxLength
      {
        assert init[i] == ss[i];
      }
      SentenceFoldNoEmpty(init, maxLength);
      if !(|acc.current| + |s| + 1 <= maxLength) && |s| > maxLength {
        var flushed := Flush(acc);
        var ws := Words(s);
        forall i | 0 <= i < |ws|
          ensures |ws[i]| < maxLength
        {
          assert ws[i] in Words(ss[|ss| - 1]);
        }
        WordFoldNoEmpty(Acc(flushed, ""), ws, maxLength);
      }
    }
  }

  /** When every word is shorter than the limit, no segment is empty. */
  lemma SegmentsNonEmpty(text: string, maxLength: int)
    requires forall w :: w in Words(text) ==> |w| < maxLength
    ensures forall s :: s in Segments(text, maxLength) ==> s != ""
  {
    if text != "" && |text| > maxLength {
      var ss := SplitSentences(text);
      forall i, w | 0 <= i < |ss| && w in Words(ss[i])
        ensures |w| < maxLength
      {
        SentenceWordInText(text, i, w);
      }
      SentenceFoldNoEmpty(ss, maxLength);
    }
  }

  /**
   * Without that precondition an empty segment is produced: a first word as long
   * as the limit flushes the still-empty word group.
   */
  lemma LongFirstWordFlushesEmpty()
    ensures Segments("abcd", 3) == ["", "abcd"]
  {
    var t := "abcd";
    assert !BreaksAt(t, 0) && !BreaksAt(t, 1) && !BreaksAt(t, 2) && !BreaksAt(t, 3);
    assert BreakFrom(t, 0) == 4;
    assert SplitSentences(t) == [t];
    WordsOfWord(t);
    assert SentenceFold([t], 3) == AddSentence(SentenceFold([], 3), t, 3);
    assert WordFold(Acc([], ""), [t], 3) == AddWord(WordFold(Acc([], ""), [], 3), t, 3);
  }
}
