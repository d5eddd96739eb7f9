/**
 * The front end's message helpers (front-end/src/utils/messageUtils.js):
 * `splitTextIntoSegments`, a sentence packer whose length test leaves out the
 * joining space, and `processStreamData`, which frames the chat stream into
 * lines and dispatches each parsed line to a callback by its `type`.
 */
module MessageUtils {
  import opened Strs
  import opened Sentences
  import opened Json
  import opened Wrappers
  import opened Framing

  // ---------------------------------------------------------------------------
  // splitTextIntoSegments
  // ---------------------------------------------------------------------------

  datatype Acc = Acc(segments: seq<string>, current: string)

  /** One pass of the loop (messageUtils.js:12-21). */
  function AddSentence(acc: Acc, s: string, maxLength: int): Acc
  {
    if |acc.current + s| <= maxLength then
      Acc(acc.segments, acc.current + (if acc.current != "" then " " else "") + s)
    else
      Acc(if acc.current != "" then acc.segments + [acc.current] else acc.segments, s)
  }

  function SentenceFold(ss: seq<string>, maxLength: int): Acc
  {
    if |ss| == 0 then Acc([], "")
    else AddSentence(SentenceFold(ss[..|ss| - 1], maxLength), ss[|ss| - 1], maxLength)
  }

  /** What `splitTextIntoSegments(text, maxLength)` returns. */
  function Segments(text: string, maxLength: int): seq<string>
  {
    if text == "" || |text| <= maxLength then [text]
    else
      var acc := SentenceFold(SplitSentences(text), maxLength);
      if acc.current != "" then acc.segments + [acc.current] else acc.segments
  }

  method SplitTextIntoSegments(text: string, maxLength: int) returns (segments: seq<string>)
    ensures segments == Segments(text, maxLength)
  {
    if text == "" || |text| <= maxLength {
      return [text];
    }
    var sentences := SplitSentences(text);
    segments := [];
    var currentSegment := "";
    for i := 0 to |sentences|
      invariant Acc(segments, currentSegment) == SentenceFold(sentences[..i], maxLength)
    {
      var sentence := sentences[i];
      assert sentences[..i + 1][..i] == sentences[..i];
      if |currentSegment + sentence| <= maxLength {
        currentSegment := currentSegment + (if currentSegment != "" then " " else "") + sentence;
      } else {
        if currentSegment != "" {
          segments := segments + [currentSegment];
        }
        currentSegment := sentence;
      }
    }
    assert sentences[..|sentences|] == sentences;
    if currentSegment != "" {
      segments := segments + [currentSegment];
    }
  }

  /** Empty text and text within the limit come back as the one-element list `[text]`. */
  lemma ShortTextIsReturned(text: string, maxLength: int)
    requires text == "" || |text| <= maxLength
    ensures Segments(text, maxLength) == [text]
  {
  }

  /** A segment is one whole sentence or a join that passed the space-free test. */
  predicate Packed(seg: string, ss: seq<string>, maxLength: int)
  {
    |seg| <= maxLength + 1 || seg in ss
  }

  lemma {:induction false} SentenceFoldPacked(ss: seq<string>, maxLength: int)
    ensures var acc := SentenceFold(ss, maxLength);
      (forall seg :: seg in acc.segments ==> Packed(seg, ss, maxLength))
      && (acc.current == "" || Packed(acc.current, ss, maxLength))
    decreases |ss|
  {
    if |ss| > 0 {
      var init, s := ss[..|ss| - 1], ss[|ss| - 1];
      var acc := SentenceFold(init, maxLength);
      SentenceFoldPacked(init, maxLength);
      assert ss == init + [s];
      forall seg | Packed(seg, init, maxLength)
        ensures Packed(seg, ss, maxLength)
      {
      }
      var next := AddSentence(acc, s, maxLength);
      assert s in ss;
      if |acc.current + s| <= maxLength {
        if acc.current == "" {
          assert next.current == acc.current + "" + s == s;
        } else {
          assert next.current == acc.current + " " + s;
          assert |next.current| == |acc.current + s| + 1;
        }
      }
      assert next.current == "" || Packed(next.current, ss, maxLength);
      assert SentenceFold(ss, maxLength) == next;
    }
  }

  /**
   * Segments are bounded by `maxLength + 1`, not `maxLength`: the test omits the
   * joining space. Only a single sentence longer than that is emitted whole.
   */
  lemma SegmentsPacked(text: string, maxLength: int)
    requires text != "" && |text| > maxLength
    ensures forall seg :: seg in Segments(text, maxLength) ==>
      |seg| <= maxLength + 1 || seg in SplitSentences(text)
  {
    SentenceFoldPacked(SplitSentences(text), maxLength);
  }

  /** The bound `maxLength + 1` is reached: two sentences are joined to four characters under a limit of three. */
  lemma JoinExceedsLimit()
    ensures Segments("a. b", 3) == ["a. b"]
  {
    var t := "a. b";
    assert BreaksAt(t, 2);
    assert !BreaksAt(t, 0) && !BreaksAt(t, 1);
    assert BreakFrom(t, 0) == 2;
    assert SpaceRunEnd(t, 2) == 3;
    assert t[3..] == "b";
    assert !BreaksAt("b", 0);
    assert BreakFrom("b", 0) == 1;
    assert SplitSentences("b") == ["b"];
    assert t[..2] == "a.";
    assert SplitSentences(t) == [t[..2]] + SplitSentences(t[3..]);
    assert SplitSentences(t) == ["a."] + ["b"];
    var ss := ["a.", "b"];
    assert ss[..1] == ["a."];
    assert SentenceFold(["a."], 3) == AddSentence(SentenceFold([], 3), "a.", 3);
    assert SentenceFold(["a."], 3) == Acc([], "a.");
    assert SentenceFold(ss, 3) == AddSentence(SentenceFold(["a."], 3), "b", 3);
    assert "a." + " " + "b" == "a. b";
    assert SentenceFold(ss, 3) == Acc([], "a. b");
  }

  lemma {:induction false} SentenceFoldNonEmpty(ss: seq<string>, maxLength: int)
    ensures forall seg :: seg in SentenceFold(ss, maxLength).segments ==> seg != ""
    decreases |ss|
  {
    if |ss| > 0 {
      SentenceFoldNonEmpty(ss[..|ss| - 1], maxLength);
    }
  }

  /** A long text never yields an empty segment: only non-empty segments are pushed. */
  lemma LongTextSegmentsNonEmpty(text: string, maxLength: int)
    requires text != "" && |text| > maxLength
    ensures forall seg :: seg in Segments(text, maxLength) ==> seg != ""
  {
    SentenceFoldNonEmpty(SplitSentences(text), maxLength);
  }

  function AccWords(acc: Acc): seq<string>
  {
    WordsOf(acc.segments) + Words(acc.current)
  }

  lemma AddSentenceWords(acc: Acc, s: string, maxLength: int)
    ensures AccWords(AddSentence(acc, s, maxLength)) == AccWords(acc) + Words(s)
  {
    if |acc.current + s| <= maxLength {
      if acc.current != "" {
        WordsSpaceJoin(acc.current, s);
      } else {
        assert acc.current + "" + s == s;
      }
    } else if acc.current != "" {
      WordsOfAppend(acc.segments, acc.current);
    }
  }

  lemma {:induction false} SentenceFoldWords(ss: seq<string>, maxLength: int)
    ensures AccWords(SentenceFold(ss, maxLength)) == WordsOf(ss)
    decreases |ss|
  {
    if |ss| > 0 {
      SentenceFoldWords(ss[..|ss| - 1], maxLength);
      AddSentenceWords(SentenceFold(ss[..|ss| - 1], maxLength), ss[|ss| - 1], maxLength);
    }
  }

  /** Packing keeps every word, in order. */
  lemma SegmentsKeepWords(text: string, maxLength: int)
    ensures Words(Join(" ", Segments(text, maxLength))) == Words(text)
  {
    var segs := Segments(text, maxLength);
    WordsOfJoin(segs);
    if text == "" || |text| <= maxLength {
      assert WordsOf([text]) == WordsOf([]) + Words(text);
    } else {
      var acc := SentenceFold(SplitSentences(text), maxLength);
      SentenceFoldWords(SplitSentences(text), maxLength);
      SentencesKeepWords(text);
      if acc.current != "" {
        WordsOfAppend(acc.segments, acc.current);
      }
    }
  }

  // ---------------------------------------------------------------------------
  // processStreamData
  // ---------------------------------------------------------------------------

  /** A callback invocation, in the order the callbacks are made. */
  datatype Call =
    | OnTextMessage(data: Value)
    | OnAudioMessage(data: Value)
    | OnComplete(info: Option<Value>)
    | OnError(message: Option<Value>)

  const ParseFailure: string := "解析响应数据失败"

  /** `JSON.parse`, an oracle: None when the line is not valid JSON. */
  type Parser = string -> Option<Value>

  /**
   * The callbacks one line causes (messageUtils.js:47-75); an unknown type
   * only logs. A line that is not JSON, or is `null` (whose `.type` throws),
   * reports the parse failure.
   */
  function Dispatch(line: string, parse: Parser): seq<Call>
  {
    if Strip(line) == "" then []
    else
      match parse(line)
      case None => [OnError(Some(JStr(ParseFailure)))]
      case Some(JNull) => [OnError(Some(JStr(ParseFailure)))]
      case Some(data) =>
        var kind := GetStr(data, "type");
        if kind == Some("text") then [OnTextMessage(data)]
        else if kind == Some("audio") then [OnAudioMessage(data)]
        else if kind == Some("audio_complete") then [OnComplete(Some(data))]
        else if kind == Some("error") then [OnError(Get(data, "message"))]
        else []
  }

  function DispatchAll(lines: seq<string>, parse: Parser): seq<Call>
  {
    if |lines| == 0 then []
    else DispatchAll(lines[..|lines| - 1], parse) + Dispatch(lines[|lines| - 1], parse)
  }

  lemma DispatchAllSnoc(xs: seq<string>, x: string, parse: Parser)
    ensures DispatchAll(xs + [x], parse) == DispatchAll(xs, parse) + Dispatch(x, parse)
  {
    assert (xs + [x])[..|xs|] == xs;
  }

  lemma {:induction false} DispatchAllAppend(a: seq<string>, b: seq<string>, parse: Parser)
    ensures DispatchAll(a + b, parse) == DispatchAll(a, parse) + DispatchAll(b, parse)
    decreases |b|
  {
    if |b| > 0 {
      var b', x := b[..|b| - 1], b[|b| - 1];
      assert b == b' + [x];
      assert a + b == (a + b') + [x];
      DispatchAllSnoc(a + b', x, parse);
      DispatchAllSnoc(b', x, parse);
      DispatchAllAppend(a, b', parse);
    } else {
      assert a + b == a;
    }
  }

  /** One read: the callbacks of the text so far extend by those of the buffer plus the chunk. */
  lemma StreamStep(received: string, buffer: string, chunk: string, parse: Parser)
    requires Remainder(received) == buffer
    ensures DispatchAll(CompleteLines(received + chunk), parse)
      == DispatchAll(CompleteLines(received), parse) + DispatchAll(CompleteLines(buffer + chunk), parse)
    ensures Remainder(received + chunk) == Remainder(buffer + chunk)
  {
    FrameStep(received, buffer, chunk);
    DispatchAllAppend(CompleteLines(received), CompleteLines(buffer + chunk), parse);
  }

  /**
   * `processStreamData` over the decoded chunks the reader delivers, then
   * either the end of the stream or a rejected read with its error message:
   * the callbacks are those of the complete lines of the whole stream, in
   * order, whatever the chunking, followed by one `onComplete()`, or by
   * `onError(error.message)` and no completion when the read failed
   * (messageUtils.js:80-83); the unterminated last line is never delivered.
   */
  method ProcessStreamData(chunks: seq<string>, failure: Option<string>, parse: Parser)
    returns (calls: seq<Call>, buffer: string)
    ensures failure.None? ==> calls == DispatchAll(CompleteLines(Concat(chunks)), parse) + [OnComplete(None)]
    ensures failure.Some? ==> calls == DispatchAll(CompleteLines(Concat(chunks)), parse) + [OnError(Some(JStr(failure.value)))]
    ensures buffer == Remainder(Concat(chunks))
  {
    buffer := "";
    calls := [];
    for i := 0 to |chunks|
      invariant buffer == Remainder(Concat(chunks[..i]))
      invariant calls == DispatchAll(CompleteLines(Concat(chunks[..i])), parse)
    {
      ConcatPrefix(chunks, i);
      StreamStep(Concat(chunks[..i]), buffer, chunks[i], parse);
      buffer := buffer + chunks[i];
      var lines := SplitChar(buffer, '\n');
      assert lines[..|lines| - 1] == CompleteLines(buffer);
      buffer := lines[|lines| - 1];
      lines := lines[..|lines| - 1];
      var more := DispatchLines(lines, parse);
      calls := calls + more;
    }
    assert chunks[..|chunks|] == chunks;
    if failure.Some? {
      calls := calls + [OnError(Some(JStr(failure.value)))];
    } else {
      calls := calls + [OnComplete(None)];
    }
  }

  /** The inner loop over the complete lines of one read (messageUtils.js:46-76). */
  method DispatchLines(lines: seq<string>, parse: Parser) returns (calls: seq<Call>)
    ensures calls == DispatchAll(lines, parse)
  {
    calls := [];
    for j := 0 to |lines|
      invariant calls == DispatchAll(lines[..j], parse)
    {
      assert lines[..j + 1][..j] == lines[..j];
      calls := calls + Dispatch(lines[j], parse);
    }
    assert lines[..|lines|] == lines;
  }

  /** A line holding JSON `null` reports the parse failure, as a malformed line does. */
  lemma NullLineFails(line: string, parse: Parser)
    requires Strip(line) != "" && parse(line) == Some(JNull)
    ensures DispatchAll([line], parse) == [OnError(Some(JStr(ParseFailure)))]
  {
    DispatchAllSnoc([], line, parse);
    assert [] + [line] == [line];
  }

  /** A stream that ends without a newline delivers no line at all. */
  lemma UnterminatedLineNotDelivered(s: string, parse: Parser)
    requires forall j :: 0 <= j < |s| ==> s[j] != '\n'
    ensures DispatchAll(CompleteLines(s), parse) == []
  {
    NoSeparatorSplit(s, '\n');
  }
}
