/**
 * The speech server's streaming front door (tts_server/api.py): `split_text`
 * cuts the request text into pieces of at most `max_length` characters,
 * preferring the last sentence, clause or word boundary; `generate_stream`
 * synthesises each piece with its own seed and labels it with its index.
 * Speech synthesis itself is an oracle parameter.
 */
module TtsApi {
  import opened Strs
  import opened Wrappers

  /** The separators tried, highest priority first (api.py:47). */
  const Separators: seq<string> := [". ", "! ", "? ", "; ", ", ", " "]

  /**
   * The cut that the separator loop (api.py:55-60) finds in `window`, trying the
   * separators from index `k` on: just past the last occurrence at a position
   * greater than 0 of the first separator that has one; -1 when none has.
   */
  function SeparatorCut(window: string, k: nat): (r: int)
    requires k <= |Separators|
    ensures r == -1 || (1 < r <= |window|)
    decreases |Separators| - k
  {
    if k == |Separators| then -1
    else
      var pos := RFind(window, Separators[k]);
      if pos > 0 then pos + |Separators[k]| else SeparatorCut(window, k + 1)
  }

  /** `segment_end` of one pass of the outer loop (api.py:52-70). */
  function CutPoint(text: string, maxLength: nat): (e: nat)
    requires |text| > maxLength
    ensures e <= maxLength
    ensures maxLength >= 1 ==> e >= 1
  {
    var window := text[..maxLength];
    var sepEnd := SeparatorCut(window, 0);
    if sepEnd != -1 then sepEnd
    else
      var pos := RFind(window, " ");
      if pos > 0 then pos + 1 else maxLength
  }

  /** The segments the loop appends from `text` on (api.py:50-78). */
  function Pieces(text: string, maxLength: nat): seq<string>
    requires maxLength >= 1
    decreases |text|
  {
    if |text| <= maxLength then (if text != "" then [text] else [])
    else
      var e := CutPoint(text, maxLength);
      [Strip(text[..e])] + Pieces(Strip(text[e..]), maxLength)
  }

  /** The result of `split_text(text, max_length)`. */
  function SplitTextSpec(text: string, maxLength: nat): seq<string>
    requires maxLength >= 1
  {
    if |text| <= maxLength then [text] else Pieces(text, maxLength)
  }

  method SplitText(text: string, maxLength: nat) returns (segments: seq<string>)
    requires maxLength >= 1
    ensures segments == SplitTextSpec(text, maxLength)
  {
    if |text| <= maxLength {
      return [text];
    }
    segments := [];
    var rest := text;
    assert segments + Pieces(rest, maxLength) == Pieces(text, maxLength);
    while |rest| > maxLength
      invariant segments + Pieces(rest, maxLength) == Pieces(text, maxLength)
      decreases |rest|
    {
      var segmentEnd := FindCut(rest, maxLength);
      PiecesAfterCut(segments, rest, maxLength);
      segments := segments + [Strip(rest[..segmentEnd])];
      rest := Strip(rest[segmentEnd..]);
    }
    PiecesShort(rest, maxLength);
    if rest != "" {
      segments := segments + [rest];
    } else {
      assert segments + [] == segments;
    }
  }

  lemma PiecesAfterCut(done: seq<string>, text: string, maxLength: nat)
    requires maxLength >= 1 && |text| > maxLength
    ensures done + Pieces(text, maxLength)
      == (done + [Strip(text[..CutPoint(text, maxLength)])]) + Pieces(Strip(text[CutPoint(text, maxLength)..]), maxLength)
  {
    var head := Strip(text[..CutPoint(text, maxLength)]);
    var tail := Pieces(Strip(text[CutPoint(text, maxLength)..]), maxLength);
    PiecesStep(text, maxLength);
    AppendAssoc(done, [head], tail);
  }

  lemma AppendAssoc<T>(a: seq<T>, b: seq<T>, c: seq<T>)
    ensures a + (b + c) == (a + b) + c
  {
  }

  lemma PiecesShort(text: string, maxLength: nat)
    requires maxLength >= 1 && |text| <= maxLength
    ensures Pieces(text, maxLength) == if text != "" then [text] else []
  {
  }

  lemma PiecesStep(text: string, maxLength: nat)
    requires maxLength >= 1 && |text| > maxLength
    ensures Pieces(text, maxLength)
      == [Strip(text[..CutPoint(text, maxLength)])] + Pieces(Strip(text[CutPoint(text, maxLength)..]), maxLength)
  {
  }

  /** The search for `segment_end` in one pass of the loop (api.py:52-70). */
  method FindCut(text: string, maxLength: nat) returns (segmentEnd: int)
    requires |text| > maxLength
    ensures segmentEnd == CutPoint(text, maxLength)
  {
    var window := text[..maxLength];
    segmentEnd := -1;
    var k := 0;
    while k < |Separators| && segmentEnd == -1
      invariant 0 <= k <= |Separators|
      invariant segmentEnd == -1 ==> SeparatorCut(window, 0) == SeparatorCut(window, k)
      invariant segmentEnd != -1 ==> segmentEnd == SeparatorCut(window, 0)
    {
      var pos := RFind(window, Separators[k]);
      if pos > 0 {
        segmentEnd := pos + |Separators[k]|;
      }
      k := k + 1;
    }
    if segmentEnd == -1 {
      var pos := RFind(window, " ");
      if pos > 0 {
        segmentEnd := pos + 1;
      } else {
        segmentEnd := maxLength;
      }
    }
  }

  // ---------------------------------------------------------------------------
  // Properties of split_text
  // ---------------------------------------------------------------------------

  /** The word-boundary fallback (api.py:63-67) never fires: `" "` is already a separator. */
  lemma SpaceFallbackUnreachable(text: string, maxLength: nat)
    requires |text| > maxLength
    ensures SeparatorCut(text[..maxLength], 0) == -1 ==> RFind(text[..maxLength], " ") <= 0
  {
    var w := text[..maxLength];
    if SeparatorCut(w, 0) == -1 {
      assert SeparatorCut(w, 0) == SeparatorCut(w, 5);
    }
  }

  lemma {:induction false} PiecesBounded(text: string, maxLength: nat)
    requires maxLength >= 1
    ensures forall s :: s in Pieces(text, maxLength) ==> |s| <= maxLength
    decreases |text|
  {
    if |text| > maxLength {
      var e := CutPoint(text, maxLength);
      PiecesStep(text, maxLength);
      PiecesBounded(Strip(text[e..]), maxLength);
    }
  }

  /** Every segment has at most `maxLength` characters. */
  lemma SegmentsBounded(text: string, maxLength: nat)
    requires maxLength >= 1
    ensures forall s :: s in SplitTextSpec(text, maxLength) ==> |s| <= maxLength
  {
    PiecesBounded(text, maxLength);
  }

  lemma {:induction false} PiecesKeepNonSpace(text: string, maxLength: nat)
    requires maxLength >= 1
    ensures NonSpace(Concat(Pieces(text, maxLength))) == NonSpace(text)
    decreases |text|
  {
    if |text| <= maxLength {
      if text != "" {
        ConcatSingle(text);
      }
    } else {
      var e := CutPoint(text, maxLength);
      var head, tail := Strip(text[..e]), Strip(text[e..]);
      PiecesStep(text, maxLength);
      PiecesKeepNonSpace(tail, maxLength);
      var ps := Pieces(tail, maxLength);
      assert Concat([head] + ps) == head + Concat(ps);
      NonSpaceConcat(head, Concat(ps));
      StripKeepsNonSpace(text[..e]);
      StripKeepsNonSpace(text[e..]);
      assert text == text[..e] + text[e..];
      NonSpaceConcat(text[..e], text[e..]);
    }
  }

  /**
   * Cutting only ever drops whitespace: the non-space characters of the
   * segments, read in order, are those of the text.
   */
  lemma SegmentsKeepNonSpace(text: string, maxLength: nat)
    requires maxLength >= 1
    ensures NonSpace(Concat(SplitTextSpec(text, maxLength))) == NonSpace(text)
  {
    if |text| <= maxLength {
      ConcatSingle(text);
    } else {
      PiecesKeepNonSpace(text, maxLength);
    }
  }

  lemma {:induction false} PiecesOfStrippedNonEmpty(text: string, maxLength: nat)
    requires maxLength >= 1
    requires text == "" || !IsSpace(text[0])
    ensures forall i :: 0 <= i < |Pieces(text, maxLength)| ==> Pieces(text, maxLength)[i] != ""
    decreases |text|
  {
    if |text| > maxLength {
      var e := CutPoint(text, maxLength);
      var tail := Strip(text[e..]);
      PiecesStep(text, maxLength);
      PiecesOfStrippedNonEmpty(tail, maxLength);
      StripEmptyIffBlank(text[..e]);
      assert !IsSpace(text[..e][0]);
    }
  }

  /**
   * Only the first segment can be empty, and only when the text is empty or
   * begins with whitespace; every later piece was stripped before it was cut.
   */
  lemma OnlyFirstSegmentMayBeEmpty(text: string, maxLength: nat)
    requires maxLength >= 1
    ensures forall i :: 0 < i < |SplitTextSpec(text, maxLength)| ==> SplitTextSpec(text, maxLength)[i] != ""
    ensures text != "" && !IsSpace(text[0]) ==> forall s :: s in SplitTextSpec(text, maxLength) ==> s != ""
  {
    if |text| > maxLength {
      var e := CutPoint(text, maxLength);
      var tail := Strip(text[e..]);
      PiecesStep(text, maxLength);
      PiecesOfStrippedNonEmpty(tail, maxLength);
      if text != "" && !IsSpace(text[0]) {
        PiecesOfStrippedNonEmpty(text, maxLength);
      }
    }
  }

  /**
   * With `max_length = 0` the loop makes no progress: the cut is at 0, the
   * piece is empty, and a stripped non-empty remainder is left as it was, so
   * `split_text` never returns.
   */
  lemma ZeroLimitNoProgress(text: string)
    requires |text| > 0
    ensures CutPoint(text, 0) == 0
    ensures Strip(text[..CutPoint(text, 0)]) == ""
    ensures Strip(text[CutPoint(text, 0)..]) == Strip(text)
    ensures text == Strip(text) ==> Strip(text[CutPoint(text, 0)..]) == text
  {
    var w := text[..0];
    assert SeparatorCut(w, 0) == -1 by {
      forall k | 0 <= k < |Separators|
        ensures RFind(w, Separators[k]) == -1
      {
      }
      assert SeparatorCut(w, 5) == -1;
      assert SeparatorCut(w, 4) == -1;
      assert SeparatorCut(w, 3) == -1;
      assert SeparatorCut(w, 2) == -1;
      assert SeparatorCut(w, 1) == -1;
    }
    assert text[0..] == text;
  }

  // ---------------------------------------------------------------------------
  // generate_audio_segment and generate_stream
  // ---------------------------------------------------------------------------

  /** What the speech model gives for one piece: samples and their rate, or an error message. */
  type Synthesizer = (string, string, string, int) -> Result<(seq<int>, nat), string>

  /** The JSON object streamed for one segment (api.py:106-110, 116, 172-173). */
  datatype StreamItem =
    | AudioItem(text: string, audio: seq<int>, sampleRate: nat, segmentIndex: nat, totalSegments: nat)
    | ErrorItem(error: string, text: string, segmentIndex: nat, totalSegments: nat)

  /** The dictionary `generate_audio_segment` returns, before the index fields are added. */
  datatype SegmentAudio =
    | SegmentOk(text: string, audio: seq<int>, sampleRate: nat)
    | SegmentError(error: string, text: string)

  /** A failure is returned as `{"error", "text"}` and never raised (api.py:83-116). */
  function GenerateAudioSegment(text: string, speaker: string, language: string, seed: int,
                                synth: Synthesizer): (r: SegmentAudio)
    ensures r.text == text
    ensures r.SegmentError? <==> synth(text, speaker, language, seed).Failure?
    ensures r.SegmentError? ==> r.error == synth(text, speaker, language, seed).error
    ensures r.SegmentOk? ==> (r.audio, r.sampleRate) == synth(text, speaker, language, seed).value
  {
    match synth(text, speaker, language, seed)
    case Success((audio, rate)) => SegmentOk(text, audio, rate)
    case Failure(msg) => SegmentError(msg, text)
  }

  function Labelled(a: SegmentAudio, i: nat, total: nat): StreamItem
  {
    match a
    case SegmentOk(t, audio, rate) => AudioItem(t, audio, rate, i, total)
    case SegmentError(msg, t) => ErrorItem(msg, t, i, total)
  }

  /**
   * The items of `generate_stream` (api.py:161-176): one per segment, in order,
   * item i synthesised from segment i with seed `seed + i` and labelled with
   * index i and the segment count.
   */
  method GenerateStream(segments: seq<string>, speaker: string, language: string, seed: int,
                        synth: Synthesizer) returns (items: seq<StreamItem>)
    ensures |items| == |segments|
    ensures forall i :: 0 <= i < |items| ==>
      items[i].segmentIndex == i && items[i].totalSegments == |segments| && items[i].text == segments[i]
    ensures forall i :: 0 <= i < |items| ==>
      (items[i].ErrorItem? <==> synth(segments[i], speaker, language, seed + i).Failure?)
    ensures forall i :: 0 <= i < |items| && items[i].AudioItem? ==>
      (items[i].audio, items[i].sampleRate) == synth(segments[i], speaker, language, seed + i).value
    ensures forall i :: 0 <= i < |items| && items[i].ErrorItem? ==>
      items[i].error == synth(segments[i], speaker, language, seed + i).error
  {
    items := [];
    for i := 0 to |segments|
      invariant |items| == i
      invariant forall j :: 0 <= j < i ==>
        items[j] == Labelled(GenerateAudioSegment(segments[j], speaker, language, seed + j, synth), j, |segments|)
    {
      var audioData := GenerateAudioSegment(segments[i], speaker, language, seed + i, synth);
      items := items + [Labelled(audioData, i, |segments|)];
    }
  }
}
