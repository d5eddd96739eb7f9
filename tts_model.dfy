/**
 * The back end's speech synthesis client (back-end/models/tts_model.py): the
 * speaker setting, whitespace collapsing, the 500-character chunker, the
 * per-chunk synthesis with failures dropped, and the token preparation of the
 * local model. The HTTP call and the audio decoding are one oracle.
 */
module TtsModel {
  import opened Wrappers
  import opened Strs
  import opened Sentences

  /** Text longer than this is synthesised chunk by chunk (tts_model.py:85). */
  const LongText: nat := 500
  /** `config.MAX_PHONEME_LENGTH`. */
  const MaxPhonemeLength: nat := 510

  /** Decoded audio; the samples are left abstract. */
  datatype Audio = Audio(samples: seq<int>, sampleRate: int)

  /** The JSON body posted to the speech server (tts_model.py:127-135); the float knobs are left out. */
  datatype TtsRequest = TtsRequest(text: string, modelType: string, language: string, speaker: string, seed: int)

  /** The server call and decoding: None for a non-200 status, an empty body or any exception. */
  type Synthesizer = TtsRequest -> Option<Audio>

  /** The error raised when no speaker was ever set: `self.speaker` is only assigned by `set_speaker`. */
  const NoSpeaker: string := "AttributeError: 'TextToSpeechModel' object has no attribute 'speaker'"

  function Request(text: string, speaker: string): TtsRequest
  {
    TtsRequest(text, "Transformer", "en-us", speaker, 421)
  }

  /** `_generate_audio_for_text(text)` (tts_model.py:126-200). */
  function ForText(speaker: Option<string>, text: string, synth: Synthesizer): Result<Option<Audio>, string>
  {
    if speaker.None? then Failure(NoSpeaker) else Success(synth(Request(text, speaker.value)))
  }

  /** `' '.join(text.split())`. */
  function Collapse(text: string): string
  {
    Join(" ", Words(text))
  }

  /** Collapsing keeps the words, in order. */
  lemma CollapseKeepsWords(text: string)
    ensures Words(Collapse(text)) == Words(text)
  {
    WordsAreWords(text);
    WordsJoinWords(Words(text));
  }

  // ---------------------------------------------------------------------------
  // The chunker of generate_audio_async
  // ---------------------------------------------------------------------------

  datatype Acc = Acc(chunks: seq<string>, current: string)

  /** One pass of the loop (tts_model.py:93-99): the test leaves out the joining space. */
  function AddSentence(acc: Acc, s: string): Acc
  {
    if |acc.current| + |s| < LongText then
      Acc(acc.chunks, acc.current + (if acc.current != "" then " " else "") + s)
    else
      Acc(if acc.current != "" then acc.chunks + [acc.current] else acc.chunks, s)
  }

  function SentenceFold(ss: seq<string>): Acc
  {
    if |ss| == 0 then Acc([], "")
    else AddSentence(SentenceFold(ss[..|ss| - 1]), ss[|ss| - 1])
  }

  /** The chunks of a long text (tts_model.py:88-102). */
  function Chunks(text: string): seq<string>
  {
    var acc := SentenceFold(SplitSentences(text));
    if acc.current != "" then acc.chunks + [acc.current] else acc.chunks
  }

  lemma {:induction false} SentenceFoldNonEmpty(ss: seq<string>)
    ensures forall c :: c in SentenceFold(ss).chunks ==> c != ""
    decreases |ss|
  {
    if |ss| > 0 {
      SentenceFoldNonEmpty(ss[..|ss| - 1]);
    }
  }

  /** An empty chunk is never pushed. */
  lemma ChunksNonEmpty(text: string)
    ensures forall c :: c in Chunks(text) ==> c != ""
  {
    SentenceFoldNonEmpty(SplitSentences(text));
  }

  predicate Fits(c: string, ss: seq<string>)
  {
    |c| <= LongText || c in ss
  }

  lemma {:induction false} SentenceFoldFits(ss: seq<string>)
    ensures var acc := SentenceFold(ss);
      (forall c :: c in acc.chunks ==> Fits(c, ss)) && (acc.current == "" || Fits(acc.current, ss))
    decreases |ss|
  {
    if |ss| > 0 {
      var init, s := ss[..|ss| - 1], ss[|ss| - 1];
      var acc := SentenceFold(init);
      SentenceFoldFits(init);
      assert ss == init + [s];
      forall c | Fits(c, init)
        ensures Fits(c, ss)
      {
      }
      var next := AddSentence(acc, s);
      if |acc.current| + |s| < LongText {
        if acc.current == "" {
          assert next.current == acc.current + "" + s == s;
        } else {
          assert next.current == acc.current + " " + s;
        }
      }
      assert SentenceFold(ss) == next;
    }
  }

  /**
   * A chunk is at most 500 characters (the strict test plus the one joining
   * space), unless it is one sentence of the text on its own.
   */
  lemma ChunksBounded(text: string)
    ensures forall c :: c in Chunks(text) ==> |c| <= LongText || c in SplitSentences(text)
  {
    SentenceFoldFits(SplitSentences(text));
  }

  function AccWords(acc: Acc): seq<string>
  {
    WordsOf(acc.chunks) + Words(acc.current)
  }

  lemma AddSentenceWords(acc: Acc, s: string)
    ensures AccWords(AddSentence(acc, s)) == AccWords(acc) + Words(s)
  {
    if |acc.current| + |s| < LongText {
      if acc.current != "" {
        WordsSpaceJoin(acc.current, s);
      } else {
        assert acc.current + "" + s == s;
      }
    } else if acc.current != "" {
      WordsOfAppend(acc.chunks, acc.current);
    }
  }

  lemma {:induction false} SentenceFoldWords(ss: seq<string>)
    ensures AccWords(SentenceFold(ss)) == WordsOf(ss)
    decreases |ss|
  {
    if |ss| > 0 {
      SentenceFoldWords(ss[..|ss| - 1]);
      AddSentenceWords(SentenceFold(ss[..|ss| - 1]), ss[|ss| - 1]);
    }
  }

  /** Chunking keeps every word of the text, in order. */
  lemma ChunksKeepWords(text: string)
    ensures WordsOf(Chunks(text)) == Words(text)
  {
    var acc := SentenceFold(SplitSentences(text));
    SentenceFoldWords(SplitSentences(text));
    SentencesKeepWords(text);
    if acc.current != "" {
      WordsOfAppend(acc.chunks, acc.current);
    }
  }

  // ---------------------------------------------------------------------------
  // Combining chunk results
  // ---------------------------------------------------------------------------

  /** The successful results, in order. */
  function Successes(results: seq<Option<Audio>>): (r: seq<Audio>)
    ensures |r| <= |results|
  {
    if |results| == 0 then []
    else
      var init := Successes(results[..|results| - 1]);
      match results[|results| - 1]
      case None => init
      case Some(a) => init + [a]
  }

  function ConcatSamples(segments: seq<Audio>): seq<int>
  {
    if |segments| == 0 then [] else ConcatSamples(segments[..|segments| - 1]) + segments[|segments| - 1].samples
  }

  /** `np.concatenate` of the successes with the first one's rate, or None (tts_model.py:115-120). */
  function Combine(segments: seq<Audio>): Option<Audio>
  {
    if |segments| == 0 then None else Some(Audio(ConcatSamples(segments), segments[0].sampleRate))
  }

  /** No success at all exactly when every chunk failed. */
  lemma {:induction false} SuccessesEmptyIffAllFailed(results: seq<Option<Audio>>)
    ensures Successes(results) == [] <==> forall i :: 0 <= i < |results| ==> results[i].None?
    decreases |results|
  {
    if |results| > 0 {
      var init := results[..|results| - 1];
      SuccessesEmptyIffAllFailed(init);
      if Successes(results) == [] {
        assert results[|results| - 1].None?;
        forall i | 0 <= i < |results|
          ensures results[i].None?
        {
          if i < |results| - 1 {
            assert results[i] == init[i];
          }
        }
      }
    }
  }

  /** The first success is the first result that is not None. */
  lemma {:induction false} FirstSuccess(results: seq<Option<Audio>>, k: nat)
    requires k < |results| && results[k].Some?
    requires forall i :: 0 <= i < k ==> results[i].None?
    ensures |Successes(results)| > 0 && Successes(results)[0] == results[k].value
    decreases |results|
  {
    var init := results[..|results| - 1];
    if k < |results| - 1 {
      FirstSuccess(init, k);
    } else {
      SuccessesEmptyIffAllFailed(init);
    }
  }

  /**
   * Failed chunks are dropped: the combined audio is None exactly when every
   * chunk failed, and otherwise has the first successful chunk's sample rate.
   */
  lemma CombineFirstRate(results: seq<Option<Audio>>, k: nat)
    requires k < |results| && results[k].Some?
    requires forall i :: 0 <= i < k ==> results[i].None?
    ensures Combine(Successes(results)).Some?
    ensures Combine(Successes(results)).value.sampleRate == results[k].value.sampleRate
  {
    FirstSuccess(results, k);
  }

  // ---------------------------------------------------------------------------
  // Synthesis entry points
  // ---------------------------------------------------------------------------

  /** The synthesis results of the chunks, in chunk order. */
  function ChunkResults(speaker: string, chunks: seq<string>, synth: Synthesizer): (r: seq<Option<Audio>>)
    ensures |r| == |chunks|
    ensures forall i :: 0 <= i < |chunks| ==> r[i] == synth(Request(chunks[i], speaker))
  {
    seq(|chunks|, i requires 0 <= i < |chunks| => synth(Request(chunks[i], speaker)))
  }

  /** `generate_audio_async(text)` (tts_model.py:77-123). */
  function GenerateSpec(speaker: Option<string>, text: string, synth: Synthesizer): Result<Option<Audio>, string>
  {
    if Strip(text) == "" then Success(None)
    else
      var t := Collapse(text);
      if |t| <= LongText then ForText(speaker, t, synth)
      else if speaker.None? then Failure(NoSpeaker)
      else Success(Combine(Successes(ChunkResults(speaker.value, Chunks(t), synth))))
  }

  /** `generate_audio_segment(text)` (tts_model.py:295-303). */
  function SegmentSpec(speaker: Option<string>, text: string, synth: Synthesizer): Result<Option<Audio>, string>
  {
    if Strip(text) == "" then Success(None) else ForText(speaker, Collapse(text), synth)
  }

  /** One chunk of `process_text_chunks`: stripped, skipped when empty, kept when synthesised. */
  function ProcessStep(acc: Result<seq<Audio>, string>, chunk: string, speaker: Option<string>, synth: Synthesizer): Result<seq<Audio>, string>
  {
    match acc
    case Failure(e) => Failure(e)
    case Success(done) =>
      var c := Strip(chunk);
      if c == "" then acc
      else
        match GenerateSpec(speaker, c, synth)
        case Failure(e) => Failure(e)
        case Success(None) => acc
        case Success(Some(a)) => Success(done + [a])
  }

  /** `process_text_chunks(chunks)` (tts_model.py:280-292): the first exception propagates. */
  function ProcessSpec(speaker: Option<string>, chunks: seq<string>, synth: Synthesizer): Result<seq<Audio>, string>
  {
    if |chunks| == 0 then Success([])
    else ProcessStep(ProcessSpec(speaker, chunks[..|chunks| - 1], synth), chunks[|chunks| - 1], speaker, synth)
  }

  /** With a speaker set, generation never raises. */
  lemma GenerateWithSpeakerSucceeds(speaker: string, text: string, synth: Synthesizer)
    ensures GenerateSpec(Some(speaker), text, synth).Success?
  {
  }

  /** Empty or whitespace-only text gives None and makes no call. */
  lemma BlankTextGivesNone(speaker: Option<string>, text: string, synth: Synthesizer)
    requires Strip(text) == ""
    ensures GenerateSpec(speaker, text, synth) == Success(None)
    ensures SegmentSpec(speaker, text, synth) == Success(None)
  {
  }

  /**
   * A segment is sent as one request whose text has the segment's words
   * joined by single spaces; without a speaker the call raises.
   */
  lemma SegmentIsOneCall(speaker: Option<string>, text: string, synth: Synthesizer)
    requires Strip(text) != ""
    ensures speaker.None? ==> SegmentSpec(speaker, text, synth) == Failure(NoSpeaker)
    ensures speaker.Some? ==> exists t :: SegmentSpec(speaker, text, synth) == Success(synth(Request(t, speaker.value)))
                                  && Words(t) == Words(text)
  {
    CollapseKeepsWords(text);
    if speaker.Some? {
      var t := Collapse(text);
      assert SegmentSpec(speaker, text, synth) == Success(synth(Request(t, speaker.value)));
    }
  }

  /** Text of at most 500 characters after collapsing makes a single synthesis call. */
  lemma ShortTextOneCall(speaker: string, text: string, synth: Synthesizer)
    requires Strip(text) != "" && |Collapse(text)| <= LongText
    ensures GenerateSpec(Some(speaker), text, synth) == Success(synth(Request(Collapse(text), speaker)))
  {
  }

  /**
   * Long text: the chunks carry the text's words in order, and the result is
   * None exactly when every chunk's synthesis failed.
   */
  /** The combined audio of some chunks is None exactly when every chunk's synthesis failed. */
  lemma CombineNoneIffAllFailed(speaker: string, chunks: seq<string>, synth: Synthesizer)
    ensures Combine(Successes(ChunkResults(speaker, chunks, synth))).None?
      <==> forall i :: 0 <= i < |chunks| ==> synth(Request(chunks[i], speaker)).None?
  {
    var results := ChunkResults(speaker, chunks, synth);
    SuccessesEmptyIffAllFailed(results);
  }

  lemma LongTextChunked(speaker: string, text: string, synth: Synthesizer)
    requires Strip(text) != "" && |Collapse(text)| > LongText
    ensures WordsOf(Chunks(Collapse(text))) == Words(text)
    ensures GenerateSpec(Some(speaker), text, synth).Success?
    ensures GenerateSpec(Some(speaker), text, synth).value.None?
      <==> forall i :: 0 <= i < |Chunks(Collapse(text))| ==> synth(Request(Chunks(Collapse(text))[i], speaker)).None?
  {
    var t := Collapse(text);
    ChunksKeepWords(t);
    CollapseKeepsWords(text);
    var chunks := Chunks(t);
    CombineNoneIffAllFailed(speaker, chunks, synth);
    assert GenerateSpec(Some(speaker), text, synth) == Success(Combine(Successes(ChunkResults(speaker, chunks, synth))));
  }

  /** Processing chunks with a speaker set never fails and gives at most one audio per chunk. */
  lemma {:induction false} ProcessNeverFails(speaker: string, chunks: seq<string>, synth: Synthesizer)
    ensures ProcessSpec(Some(speaker), chunks, synth).Success?
    ensures |ProcessSpec(Some(speaker), chunks, synth).value| <= |chunks|
    decreases |chunks|
  {
    if |chunks| > 0 {
      ProcessNeverFails(speaker, chunks[..|chunks| - 1], synth);
      var c := Strip(chunks[|chunks| - 1]);
      GenerateWithSpeakerSucceeds(speaker, c, synth);
    }
  }

  // ---------------------------------------------------------------------------
  // Local model token preparation
  // ---------------------------------------------------------------------------

  /** `[vocab[p] for p in text if p in vocab]`. */
  function Tokens(text: string, vocab: map<string, int>): (r: seq<int>)
    ensures |r| <= |text|
  {
    if |text| == 0 then []
    else
      var init := Tokens(text[..|text| - 1], vocab);
      var p := [text[|text| - 1]];
      if p in vocab then init + [vocab[p]] else init
  }

  /** What the local model is asked to run. */
  datatype LocalRun =
    | NotInitialized                        // no session: None
    | NoTokens                              // an empty float32 array
    | Run(tokens: seq<int>, styleIndex: nat) // `[[0, *tokens, 0]]` and `voices[voice][len(tokens)]`

  /** The token preparation of `generate_audio_local` (tts_model.py:258-272). */
  function LocalInput(initialized: bool, text: string, vocab: map<string, int>): LocalRun
  {
    if !initialized then NotInitialized
    else
      var tokens := Tokens(text, vocab);
      if |tokens| == 0 then NoTokens
      else
        var kept := if |tokens| <= MaxPhonemeLength then tokens else tokens[..MaxPhonemeLength];
        Run([0] + kept + [0], |kept|)
  }

  /** Every token is the vocabulary entry of a character of the text, in text order. */
  lemma {:induction false} TokensFromVocab(text: string, vocab: map<string, int>)
    ensures forall t :: t in Tokens(text, vocab) ==> exists i :: 0 <= i < |text| && [text[i]] in vocab && vocab[[text[i]]] == t
    decreases |text|
  {
    if |text| > 0 {
      var init := text[..|text| - 1];
      TokensFromVocab(init, vocab);
      forall t | t in Tokens(text, vocab)
        ensures exists i :: 0 <= i < |text| && [text[i]] in vocab && vocab[[text[i]]] == t
      {
        if t in Tokens(init, vocab) {
          var i :| 0 <= i < |init| && [init[i]] in vocab && vocab[[init[i]]] == t;
          assert text[i] == init[i];
        } else {
          assert [text[|text| - 1]] in vocab && vocab[[text[|text| - 1]]] == t;
        }
      }
    }
  }

  /** The model input is framed by 0 on both ends and holds at most 510 tokens between. */
  lemma LocalInputFramed(text: string, vocab: map<string, int>)
    ensures var r := LocalInput(true, text, vocab);
      r.Run? ==> (|r.tokens| == r.styleIndex + 2 && r.styleIndex <= MaxPhonemeLength
                  && r.tokens[0] == 0 && r.tokens[|r.tokens| - 1] == 0
                  && r.tokens[1..|r.tokens| - 1] == Tokens(text, vocab)[..r.styleIndex])
    ensures LocalInput(true, text, vocab).NoTokens? <==> Tokens(text, vocab) == []
  {
  }

  // ---------------------------------------------------------------------------
  // The model object
  // ---------------------------------------------------------------------------

  class TextToSpeechModel {
    /** None until `set_speaker` is called. */
    var speaker: Option<string>

    /** `TextToSpeechModel()` in the configured `api` mode (tts_model.py:17-29). */
    constructor()
      ensures speaker == None
    {
      speaker := None;
    }

    /** `set_speaker(speaker)` (tts_model.py:73-75): the next request sends it. */
    method SetSpeaker(s: string)
      modifies this
      ensures speaker == Some(s)
    {
      speaker := Some(s);
    }

    /** The chunking loop (tts_model.py:88-102). */
    static method ChunkText(text: string) returns (chunks: seq<string>)
      ensures chunks == Chunks(text)
    {
      var sentences := SplitSentences(text);
      chunks := [];
      var current := "";
      for i := 0 to |sentences|
        invariant Acc(chunks, current) == SentenceFold(sentences[..i])
      {
        var sentence := sentences[i];
        assert sentences[..i + 1][..i] == sentences[..i];
        if |current| + |sentence| < LongText {
          current := current + (if current != "" then " " else "") + sentence;
        } else {
          if current != "" {
            chunks := chunks + [current];
          }
          current := sentence;
        }
      }
      assert sentences[..|sentences|] == sentences;
      if current != "" {
        chunks := chunks + [current];
      }
    }

    /** The synthesis loop (tts_model.py:107-112): failures are dropped. */
    static method SynthesizeChunks(speaker: string, chunks: seq<string>, synth: Synthesizer) returns (segments: seq<Audio>)
      ensures segments == Successes(ChunkResults(speaker, chunks, synth))
    {
      segments := [];
      ghost var results := ChunkResults(speaker, chunks, synth);
      for i := 0 to |chunks|
        invariant segments == Successes(results[..i])
      {
        var result := synth(Request(chunks[i], speaker));
        assert results[..i + 1][..i] == results[..i];
        assert results[..i + 1][i] == result;
        if result.Some? {
          segments := segments + [result.value];
        }
      }
      assert results[..|chunks|] == results;
    }

    /** `generate_audio_async(text)` (tts_model.py:77-123). */
    method GenerateAudioAsync(text: string, synth: Synthesizer) returns (r: Result<Option<Audio>, string>)
      ensures r == GenerateSpec(speaker, text, synth)
    {
      if Strip(text) == "" {
        return Success(None);
      }
      var t := Collapse(text);
      if |t| > LongText {
        var chunks := ChunkText(t);
        if speaker.None? {
          return Failure(NoSpeaker);
        }
        var segments := SynthesizeChunks(speaker.value, chunks, synth);
        r := Success(Combine(segments));
      } else {
        r := ForText(speaker, t, synth);
      }
    }

    /** `generate_audio_segment(text)` (tts_model.py:295-303). */
    method GenerateAudioSegment(text: string, synth: Synthesizer) returns (r: Result<Option<Audio>, string>)
      ensures r == SegmentSpec(speaker, text, synth)
    {
      if Strip(text) == "" {
        return Success(None);
      }
      r := ForText(speaker, Collapse(text), synth);
    }

    /** `process_text_chunks(chunks)` (tts_model.py:280-292). */
    method ProcessTextChunks(chunks: seq<string>, synth: Synthesizer) returns (r: Result<seq<Audio>, string>)
      ensures r == ProcessSpec(speaker, chunks, synth)
    {
      var segments: seq<Audio> := [];
      for i := 0 to |chunks|
        invariant ProcessSpec(speaker, chunks[..i], synth) == Success(segments)
      {
        assert chunks[..i + 1][..i] == chunks[..i];
        assert ProcessSpec(speaker, chunks[..i + 1], synth) == ProcessStep(Success(segments), chunks[i], speaker, synth);
        var chunk := Strip(chunks[i]);
        if chunk == "" {
          continue;
        }
        var audio := GenerateAudioAsync(chunk, synth);
        if audio.Failure? {
          ProcessFailureSticks(speaker, chunks, i + 1, synth);
          assert chunks[..|chunks|] == chunks;
          return Failure(audio.error);
        }
        if audio.value.Some? {
          segments := segments + [audio.value.value];
        }
      }
      assert chunks[..|chunks|] == chunks;
      r := Success(segments);
    }
  }

  /** Once a chunk raises, processing the rest raises the same error. */
  lemma {:induction false} ProcessFailureSticks(speaker: Option<string>, chunks: seq<string>, k: nat, synth: Synthesizer)
    requires k <= |chunks| && ProcessSpec(speaker, chunks[..k], synth).Failure?
    ensures ProcessSpec(speaker, chunks, synth) == ProcessSpec(speaker, chunks[..k], synth)
    decreases |chunks| - k
  {
    if k < |chunks| {
      assert chunks[..k + 1][..k] == chunks[..k];
      ProcessFailureSticks(speaker, chunks, k + 1, synth);
    } else {
      assert chunks[..k] == chunks;
    }
  }
}
