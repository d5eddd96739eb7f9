/**
 * The message processors (back-end/services/message_processor.py): the text
 * processor saves the user message, asks the language model, saves the
 * reply, and either answers with one payload or streams a text event
 * followed by one audio event per synthesised segment, handing the segment
 * list to the merge step at the end. The voice, image and mixed processors
 * turn their input into a prompt and hand it to the text processor.
 */
module MessageProcessor {
  import opened Wrappers
  import opened Json
  import opened Strs
  import opened Database
  import opened RequestModels
  import TextUtils
  import TtsModel
  import LlmService
  import Assistant

  /** The default `max_length` of `split_text_into_segments`. */
  const SegmentMaxLength: int := 250

  /** What `analyze_image` returns: it is a placeholder whose failure branch cannot be reached. */
  const ImageDescription: string := "这是一张图片"

  /** The exception raised when the language model gives no reply (`None.get`). */
  const NoReplyError: string := "AttributeError: 'NoneType' object has no attribute 'get'"

  /** The error body of a voice message without speech. */
  const NoSpeechError: string := "未检测到语音内容"

  // ---------------------------------------------------------------------------
  // MessageProcessorFactory.create
  // ---------------------------------------------------------------------------

  datatype Kind = Text | Voice | Image | Mixed

  /** `MessageProcessorFactory.create` (message_processor.py:343-355). */
  function Create(messageType: string): (r: Result<Kind, string>)
    ensures r.Success? <==> messageType in {"text", "voice", "image", "mixed"}
    ensures r.Failure? ==> r.error == "不支持的消息类型: " + messageType
  {
    if messageType == "text" then Success(Text)
    else if messageType == "voice" then Success(Voice)
    else if messageType == "image" then Success(Image)
    else if messageType == "mixed" then Success(Mixed)
    else Failure("不支持的消息类型: " + messageType)
  }

  /** The wire name of each processor kind. */
  function KindName(k: Kind): string
  {
    match k
    case Text => "text"
    case Voice => "voice"
    case Image => "image"
    case Mixed => "mixed"
  }

  /** Every kind is created from its own name, so the factory and the names invert each other. */
  lemma CreateKindName(k: Kind)
    ensures Create(KindName(k)) == Success(k)
  {
  }

  /** A request that passed validation always gets a processor, of the kind its type names. */
  lemma ValidRequestHasProcessor(r: UnifiedChatRequest)
    requires IsValid(r)
    ensures Create(r.messageType).Success? && KindName(Create(r.messageType).value) == r.messageType
  {
  }

  // ---------------------------------------------------------------------------
  // TextMessageProcessor.process
  // ---------------------------------------------------------------------------

  /**
   * The response of a processor: the plain payload (`type "text"`, `status
   * "success"`), the stream (whose events `GenerateResponseStream` yields),
   * or a rejection with its HTTP status.
   */
  datatype Response =
    | Payload(messageId: Option<string>, english: string, chinese: string)
    | Streaming(messageId: Option<string>, english: string, chinese: string, segments: seq<string>)
    | Rejected(status: int, error: string)

  /** The user's text as `save_message` receives it: a missing message is `None`. */
  function MessageContent(message: Option<string>): Value
  {
    if message.Some? then JStr(message.value) else JNull
  }

  /** The reply of `get_response`: no call is made for a missing message (`not user_input`). */
  function TurnFor(ms: seq<LlmService.Entry>, prompt: string, model: string, message: Option<string>,
                   post: LlmService.Post, cx: LlmService.Cleaners): LlmService.Turn
  {
    if message.None? then LlmService.Turn(None, ms)
    else LlmService.ResponseSpec(ms, prompt, model, message.value, post, cx)
  }

  /** The draws and oracles one call of `process` uses. */
  datatype Env = Env(userUuid: string, assistantUuid: string, now: string, dumps: Dumper,
                     post: LlmService.Post, cx: LlmService.Cleaners)

  /**
   * `TextMessageProcessor.process` (message_processor.py:34-81, 171-175):
   * the tables and the model's history afterwards, and the response.
   */
  function TextOutcome(t: Tables, ms: seq<LlmService.Entry>, prompt: string, model: string,
                       message: Option<string>, streamAudio: bool, env: Env)
    : (Tables, seq<LlmService.Entry>, Result<Response, string>)
  {
    TextOutcomeOf(t, TurnFor(ms, prompt, model, message, env.post, env.cx), message, streamAudio, env)
  }

  /** The same once the model has answered with `turn`: the saves around the reply and the response. */
  function TextOutcomeOf(t: Tables, turn: LlmService.Turn, message: Option<string>, streamAudio: bool, env: Env)
    : (Tables, seq<LlmService.Entry>, Result<Response, string>)
  {
    var t1 := SavedMessage(t, "user", MessageContent(message), env.userUuid, env.now, env.dumps).0;
    match turn.reply
    case None => (t1, turn.history, Failure(NoReplyError))
    case Some(reply) =>
      var (t2, id) := SavedMessage(t1, "assistant", JStr(reply.english), env.assistantUuid, env.now, env.dumps);
      var r := if streamAudio then Streaming(id, reply.english, reply.chinese, TextUtils.Segments(reply.english, SegmentMaxLength))
               else Payload(id, reply.english, reply.chinese);
      (t2, turn.history, Success(r))
  }

  /**
   * The user message is stored before the model is asked, and the reply's
   * English text right after it: when both saves succeed, the two new rows
   * are the user's message and then the assistant's English text, and the
   * response carries the assistant row's id.
   */
  lemma UserSavedBeforeReply(t: Tables, turn: LlmService.Turn, message: Option<string>, streamAudio: bool, env: Env)
    requires KeyIndex(t.messages, KeyOf("user", env.userUuid)).None?
    requires KeyIndex(t.messages, KeyOf("assistant", env.assistantUuid)).None?
    requires TextOutcomeOf(t, turn, message, streamAudio, env).2.Success?
    ensures var (t', _, r) := TextOutcomeOf(t, turn, message, streamAudio, env);
      && |t'.messages| == |t.messages| + 2
      && t'.messages[..|t.messages|] == t.messages
      && t'.messages[|t.messages|].role == "user"
      && t'.messages[|t.messages|].content == Some(Encode(MessageContent(message), env.dumps))
      && t'.messages[|t.messages| + 1].role == "assistant"
      && t'.messages[|t.messages| + 1].content == Some(r.value.english)
      && r.value.messageId == Some(env.assistantUuid)
  {
    var reply := turn.reply.value;
    var m1 := NewMessage(NextId(t.messages), "user", env.userUuid, MessageContent(message), env.now, env.dumps);
    var t1 := t.(messages := t.messages + [m1]);
    assert SavedMessage(t, "user", MessageContent(message), env.userUuid, env.now, env.dumps) == (t1, Some(env.userUuid));
    var replyKey := KeyOf("assistant", env.assistantUuid);
    assert KeyOf("user", env.userUuid)[0] != replyKey[0];
    AppendedKeyFree(t.messages, m1, replyKey);
    var m2 := NewMessage(NextId(t1.messages), "assistant", env.assistantUuid, JStr(reply.english), env.now, env.dumps);
    var t2 := t1.(messages := t1.messages + [m2]);
    assert SavedMessage(t1, "assistant", JStr(reply.english), env.assistantUuid, env.now, env.dumps) == (t2, Some(env.assistantUuid));
    assert t2.messages == t.messages + [m1, m2];
  }

  /**
   * Without streaming the response is one payload and no segmentation is
   * done; with streaming the segments are those of the English text.
   */
  lemma StreamChoice(t: Tables, turn: LlmService.Turn, message: Option<string>, streamAudio: bool, env: Env)
    requires TextOutcomeOf(t, turn, message, streamAudio, env).2.Success?
    ensures var r := TextOutcomeOf(t, turn, message, streamAudio, env).2.value;
      && (r.Payload? <==> !streamAudio)
      && (r.Streaming? <==> streamAudio)
      && (r.Streaming? ==> r.segments == TextUtils.Segments(r.english, SegmentMaxLength))
  {
  }

  /**
   * A missing or blank message gets no reply, so `process` raises after the
   * user message is saved; the model's history is left as it was.
   */
  lemma BlankMessageFails(t: Tables, ms: seq<LlmService.Entry>, prompt: string, model: string,
                          message: Option<string>, streamAudio: bool, env: Env)
    requires message.None? || AllSpace(message.value)
    ensures var (t', ms', r) := TextOutcome(t, ms, prompt, model, message, streamAudio, env);
      && r == Failure(NoReplyError)
      && ms' == ms
      && t' == SavedMessage(t, "user", MessageContent(message), env.userUuid, env.now, env.dumps).0
  {
    if message.Some? {
      LlmService.BlankInputIgnored(ms, prompt, model, message.value, env.post, env.cx);
    }
  }

  // ---------------------------------------------------------------------------
  // generate_response_stream
  // ---------------------------------------------------------------------------

  /** One audio line of the stream; `audio` stands for the WAV data sent as base64. */
  datatype SegmentEvent = SegmentEvent(messageId: Value, segmentIndex: nat, totalSegments: nat,
                                       audio: seq<int>, sampleRate: int)

  /** A line of the stream: the text event, then audio events. */
  datatype Event =
    | TextEvent(messageId: Value, english: string, chinese: string)
    | AudioEvent(segment: SegmentEvent)

  /** The merge task scheduled in the background once the stream ends. */
  datatype MergeTask = MergeTask(messageId: Option<string>, paths: seq<Assistant.AudioPath>, storageDir: string)

  /** Python's `f"{message_id}"`: a missing id prints as "None". */
  function IdText(id: Option<string>): string
  {
    if id.Some? then id.value else "None"
  }

  function IdValue(id: Option<string>): Value
  {
    if id.Some? then JStr(id.value) else JNull
  }

  /** `f"{assistant_message_id}_{i}.wav"`. */
  function SegmentName(id: Option<string>, i: nat): string
  {
    IdText(id) + "_" + Decimal(i) + ".wav"
  }

  /** Different segments get different file names. */
  lemma SegmentNamesDistinct(id: Option<string>, i: nat, j: nat)
    requires SegmentName(id, i) == SegmentName(id, j)
    ensures i == j
  {
    var p := IdText(id) + "_";
    var a, b := SegmentName(id, i), SegmentName(id, j);
    assert a[|p|..|a| - 4] == Decimal(i);
    assert b[|p|..|b| - 4] == Decimal(j);
    DecimalRoundTrip(i);
    DecimalRoundTrip(j);
  }

  /** Different segments are written to different paths. */
  lemma SegmentPathsDistinct(dir: string, id: Option<string>, i: nat, j: nat)
    requires Assistant.PathJoin(dir, SegmentName(id, i)) == Assistant.PathJoin(dir, SegmentName(id, j))
    ensures i == j
  {
    var a, b := SegmentName(id, i), SegmentName(id, j);
    assert a[0] == b[0] == (IdText(id) + "_")[0];
    if |a| > 0 && a[0] == '/' {
    } else if dir == "" || dir[|dir| - 1] == '/' {
      assert a == Assistant.PathJoin(dir, a)[|dir|..];
      assert b == Assistant.PathJoin(dir, b)[|dir|..];
    } else {
      assert a == Assistant.PathJoin(dir, a)[|dir| + 1..];
      assert b == Assistant.PathJoin(dir, b)[|dir| + 1..];
    }
    SegmentNamesDistinct(id, i, j);
  }

  /**
   * The audio `wave` accepts (message_processor.py:119-124): `setframerate`
   * raises on a rate that is not positive, and the segment's `except`
   * (lines 155-157) skips it before any file is opened.
   */
  function Writable(audioResponse: Option<TtsModel.Audio>): (r: Option<TtsModel.Audio>)
    ensures r.Some? <==> audioResponse.Some? && audioResponse.value.sampleRate > 0
    ensures r.Some? ==> r == audioResponse
  {
    if audioResponse.Some? && audioResponse.value.sampleRate > 0 then audioResponse else None
  }

  /**
   * What a segment contributes to the stream once the speaker is set: None
   * for no audio, for a raised error and for a rate `wave` rejects.
   */
  function Outcome(speaker: string, segment: string, synth: TtsModel.Synthesizer): Option<TtsModel.Audio>
  {
    match TtsModel.SegmentSpec(Some(speaker), segment, synth)
    case Success(a) => Writable(a)
    case _ => None
  }

  /** The synthesis outcome of every segment, in order. */
  function Outcomes(speaker: string, segs: seq<string>, synth: TtsModel.Synthesizer): (r: seq<Option<TtsModel.Audio>>)
    ensures |r| == |segs|
  {
    Map((seg: string) => Outcome(speaker, seg, synth), segs)
  }

  /** `f` applied to every element, in order. */
  function Map<T, U>(f: T -> U, xs: seq<T>): (r: seq<U>)
    ensures |r| == |xs|
  {
    if |xs| == 0 then [] else Map(f, xs[..|xs| - 1]) + [f(xs[|xs| - 1])]
  }

  lemma {:induction false} MapAt<T, U>(f: T -> U, xs: seq<T>, i: nat)
    requires i < |xs|
    ensures Map(f, xs)[i] == f(xs[i])
    decreases |xs|
  {
    if i < |xs| - 1 {
      MapAt(f, xs[..|xs| - 1], i);
    }
  }

  /** The audio events so far, the matching `audio_paths`, and the files written. */
  datatype StreamState = StreamState(events: seq<SegmentEvent>, paths: seq<Assistant.AudioPath>, files: Assistant.Files)

  /**
   * The audio part of the stream (message_processor.py:100-161) over the
   * first |outs| segments, `outs[i]` being what synthesis gave segment `i`:
   * each segment with audio yields an event and a path entry and writes its
   * file; a segment without audio yields nothing.
   */
  function AudioStream(id: Option<string>, outs: seq<Option<TtsModel.Audio>>, total: nat, dir: string,
                       files: Assistant.Files): (s: StreamState)
    ensures |s.events| == |s.paths| <= |outs|
  {
    if |outs| == 0 then StreamState([], [], files)
    else
      var i := |outs| - 1;
      var s := AudioStream(id, outs[..i], total, dir, files);
      match outs[i]
      case None => s
      case Some(a) =>
        var name := SegmentName(id, i);
        StreamState(s.events + [SegmentEvent(IdValue(id), i, total, a.samples, a.sampleRate)],
                    s.paths + [Assistant.AudioPath(i, name, Some(JNum(a.sampleRate)))],
                    s.files[Assistant.PathJoin(dir, name) := a.samples])
  }

  /** What one call of `generate_audio_segment` contributes to the stream. */
  lemma OutcomeOfResult(speaker: string, segs: seq<string>, synth: TtsModel.Synthesizer, i: nat,
                        result: Result<Option<TtsModel.Audio>, string>)
    requires i < |segs| && result == TtsModel.SegmentSpec(Some(speaker), segs[i], synth)
    ensures Outcomes(speaker, segs, synth)[i] == if result.Success? then Writable(result.value) else None
  {
    MapAt((seg: string) => Outcome(speaker, seg, synth), segs, i);
  }

  /** One more outcome adds at most one event, its path and its file to the stream. */
  lemma AudioStreamStep(id: Option<string>, outs: seq<Option<TtsModel.Audio>>, i: nat, total: nat, dir: string,
                        files: Assistant.Files)
    requires i < |outs|
    ensures var s := AudioStream(id, outs[..i], total, dir, files);
      AudioStream(id, outs[..i + 1], total, dir, files)
        == match outs[i]
           case None => s
           case Some(a) =>
             StreamState(s.events + [SegmentEvent(IdValue(id), i, total, a.samples, a.sampleRate)],
                         s.paths + [Assistant.AudioPath(i, SegmentName(id, i), Some(JNum(a.sampleRate)))],
                         s.files[Assistant.PathJoin(dir, SegmentName(id, i)) := a.samples])
  {
    assert outs[..i + 1][..i] == outs[..i];
  }

  /** The events and paths of a stream are those of its prefix and at most one more. */
  lemma StreamLast(id: Option<string>, outs: seq<Option<TtsModel.Audio>>, total: nat, dir: string,
                   files: Assistant.Files)
    requires |outs| > 0
    ensures var n := |outs| - 1;
      var s0 := AudioStream(id, outs[..n], total, dir, files);
      var s := AudioStream(id, outs, total, dir, files);
      && s.events == s0.events + (if outs[n].Some? then [NewEvent(id, n, total, outs[n].value)] else [])
      && s.paths == s0.paths + (if outs[n].Some? then [NewPath(id, n, outs[n].value)] else [])
  {
  }

  function NewEvent(id: Option<string>, i: nat, total: nat, a: TtsModel.Audio): SegmentEvent
  {
    SegmentEvent(IdValue(id), i, total, a.samples, a.sampleRate)
  }

  function NewPath(id: Option<string>, i: nat, a: TtsModel.Audio): Assistant.AudioPath
  {
    Assistant.AudioPath(i, SegmentName(id, i), Some(JNum(a.sampleRate)))
  }

  /** The audio events as stream lines. */
  function AudioLines(es: seq<SegmentEvent>): (r: seq<Event>)
    ensures |r| == |es|
  {
    if |es| == 0 then [] else AudioLines(es[..|es| - 1]) + [AudioEvent(es[|es| - 1])]
  }

  /** The text line followed by one more audio line. */
  lemma LinesSnoc(first: Event, es: seq<SegmentEvent>, e: SegmentEvent)
    ensures [first] + AudioLines(es + [e]) == [first] + AudioLines(es) + [AudioEvent(e)]
  {
    assert (es + [e])[..|es|] == es;
  }

  /**
   * `generate_response_stream` (message_processor.py:84-169): the lines
   * yielded, the `audio_paths` collected, the files written and the merge
   * task scheduled.
   */
  function StreamSpec(id: Option<string>, english: string, chinese: string, segs: seq<string>, speaker: string,
                      synth: TtsModel.Synthesizer, dir: string, files: Assistant.Files)
    : (seq<Event>, seq<Assistant.AudioPath>, Assistant.Files, MergeTask)
  {
    var s := AudioStream(id, Outcomes(speaker, segs, synth), |segs|, dir, files);
    ([TextEvent(IdValue(id), english, chinese)] + AudioLines(s.events), s.paths, s.files, MergeTask(id, s.paths, dir))
  }

  /** `e` is the event of segment `i`. */
  predicate EventFor(e: SegmentEvent, i: nat)
  {
    e.segmentIndex == i
  }

  /**
   * An audio event and its `audio_paths` entry agree: the event carries the
   * assistant id and the total count and names one of the first `n`
   * segments, and the entry has the same index, the file `{id}_{i}.wav` and
   * the same sample rate.
   */
  predicate Mirrors(e: SegmentEvent, p: Assistant.AudioPath, id: Option<string>, total: nat, n: nat)
  {
    && e.messageId == IdValue(id)
    && e.totalSegments == total
    && e.segmentIndex < n
    && p == Assistant.AudioPath(e.segmentIndex, SegmentName(id, e.segmentIndex), Some(JNum(e.sampleRate)))
  }

  /** Every audio event is mirrored by its `audio_paths` entry. */
  predicate AllMirrored(s: StreamState, id: Option<string>, total: nat, n: nat)
  {
    |s.events| == |s.paths| && forall k :: 0 <= k < |s.events| ==> Mirrors(s.events[k], s.paths[k], id, total, n)
  }

  lemma {:induction false} StreamEntriesMatch(id: Option<string>, outs: seq<Option<TtsModel.Audio>>, total: nat,
                                             dir: string, files: Assistant.Files)
    ensures AllMirrored(AudioStream(id, outs, total, dir, files), id, total, |outs|)
    decreases |outs|
  {
    if |outs| > 0 {
      var n := |outs| - 1;
      StreamEntriesMatch(id, outs[..n], total, dir, files);
      StreamLast(id, outs, total, dir, files);
      var s0 := AudioStream(id, outs[..n], total, dir, files);
      if outs[n].Some? {
        MirroredSnoc(s0, id, total, n, NewEvent(id, n, total, outs[n].value), NewPath(id, n, outs[n].value));
      } else {
        MirroredGrow(s0, id, total, n);
      }
    }
  }

  lemma MirroredGrow(s: StreamState, id: Option<string>, total: nat, n: nat)
    requires AllMirrored(s, id, total, n)
    ensures AllMirrored(s, id, total, n + 1)
  {
    forall k | 0 <= k < |s.events| ensures Mirrors(s.events[k], s.paths[k], id, total, n + 1) {
      assert Mirrors(s.events[k], s.paths[k], id, total, n);
    }
  }

  lemma MirroredSnoc(s: StreamState, id: Option<string>, total: nat, n: nat, e: SegmentEvent, p: Assistant.AudioPath)
    requires AllMirrored(s, id, total, n) && Mirrors(e, p, id, total, n + 1)
    ensures forall f :: AllMirrored(StreamState(s.events + [e], s.paths + [p], f), id, total, n + 1)
  {
    MirroredGrow(s, id, total, n);
    forall f ensures AllMirrored(StreamState(s.events + [e], s.paths + [p], f), id, total, n + 1) {
      var t := StreamState(s.events + [e], s.paths + [p], f);
      forall k | 0 <= k < |t.events| ensures Mirrors(t.events[k], t.paths[k], id, total, n + 1) {
        if k < |s.events| {
          assert t.events[k] == s.events[k] && t.paths[k] == s.paths[k];
        }
      }
    }
  }

  /** Every event names one of the first `n` segments. */
  predicate IndicesBelow(es: seq<SegmentEvent>, n: nat)
  {
    forall k :: 0 <= k < |es| ==> es[k].segmentIndex < n
  }

  lemma {:induction false} StreamIndicesBelow(id: Option<string>, outs: seq<Option<TtsModel.Audio>>, total: nat,
                                             dir: string, files: Assistant.Files)
    ensures IndicesBelow(AudioStream(id, outs, total, dir, files).events, |outs|)
    decreases |outs|
  {
    if |outs| > 0 {
      StreamIndicesBelow(id, outs[..|outs| - 1], total, dir, files);
    }
  }

  /** Segment indices strictly increase along the events. */
  predicate Increasing(es: seq<SegmentEvent>)
  {
    forall k, l :: 0 <= k < l < |es| ==> es[k].segmentIndex < es[l].segmentIndex
  }

  /** Audio events come in strictly increasing segment order. */
  lemma {:induction false} StreamIndicesIncrease(id: Option<string>, outs: seq<Option<TtsModel.Audio>>, total: nat,
                                                dir: string, files: Assistant.Files)
    ensures Increasing(AudioStream(id, outs, total, dir, files).events)
    decreases |outs|
  {
    if |outs| > 0 {
      var n := |outs| - 1;
      StreamIndicesIncrease(id, outs[..n], total, dir, files);
      StreamIndicesBelow(id, outs[..n], total, dir, files);
      StreamLast(id, outs, total, dir, files);
      if outs[n].Some? {
        IncreasingSnoc(AudioStream(id, outs[..n], total, dir, files).events, NewEvent(id, n, total, outs[n].value));
      }
    }
  }

  lemma IncreasingSnoc(es: seq<SegmentEvent>, e: SegmentEvent)
    requires Increasing(es) && IndicesBelow(es, e.segmentIndex)
    ensures Increasing(es + [e])
  {
    var t := es + [e];
    forall k, l | 0 <= k < l < |t| ensures t[k].segmentIndex < t[l].segmentIndex {
      assert t[k] == es[k];
    }
  }

  /** Some event belongs to segment `i`. */
  predicate HasEventFor(es: seq<SegmentEvent>, i: nat)
  {
    exists k :: 0 <= k < |es| && EventFor(es[k], i)
  }

  /** Every event of segment `i` carries the audio `a`. */
  predicate CarriesAudio(es: seq<SegmentEvent>, i: nat, a: TtsModel.Audio)
  {
    forall k :: 0 <= k < |es| && EventFor(es[k], i) ==> es[k].audio == a.samples && es[k].sampleRate == a.sampleRate
  }

  /**
   * A segment has an audio event exactly when its synthesis gave audio, and
   * then the event carries that audio: failures and empty results are
   * skipped silently.
   */
  lemma {:induction false} EventIffSynthesised(id: Option<string>, outs: seq<Option<TtsModel.Audio>>, total: nat,
                                              dir: string, files: Assistant.Files, i: nat)
    requires i < |outs|
    ensures HasEventFor(AudioStream(id, outs, total, dir, files).events, i) <==> outs[i].Some?
    ensures outs[i].Some? ==> CarriesAudio(AudioStream(id, outs, total, dir, files).events, i, outs[i].value)
    decreases |outs|
  {
    var n := |outs| - 1;
    var init := outs[..n];
    var es := AudioStream(id, init, total, dir, files).events;
    StreamLast(id, outs, total, dir, files);
    var extra := if outs[n].Some? then [NewEvent(id, n, total, outs[n].value)] else [];
    EventsAppend(es, extra, i);
    if i < n {
      EventIffSynthesised(id, init, total, dir, files, i);
      assert init[i] == outs[i];
    } else {
      StreamIndicesBelow(id, init, total, dir, files);
      NoEventAtBound(es, n);
    }
  }

  /** Appending at most one event for segment `|outs| - 1`. */
  lemma EventsAppend(es: seq<SegmentEvent>, extra: seq<SegmentEvent>, i: nat)
    requires |extra| <= 1
    ensures HasEventFor(es + extra, i) <==> HasEventFor(es, i) || (|extra| == 1 && EventFor(extra[0], i))
    ensures forall a :: CarriesAudio(es + extra, i, a) <==>
      CarriesAudio(es, i, a) && (|extra| == 1 && EventFor(extra[0], i) ==> extra[0].audio == a.samples && extra[0].sampleRate == a.sampleRate)
  {
    var t := es + extra;
    if HasEventFor(t, i) {
      var k :| 0 <= k < |t| && EventFor(t[k], i);
      if k < |es| {
        assert t[k] == es[k];
      }
    }
    if HasEventFor(es, i) {
      var k :| 0 <= k < |es| && EventFor(es[k], i);
      assert t[k] == es[k];
    }
    if |extra| == 1 && EventFor(extra[0], i) {
      assert t[|es|] == extra[0];
    }
    forall a ensures CarriesAudio(t, i, a) <==>
      CarriesAudio(es, i, a) && (|extra| == 1 && EventFor(extra[0], i) ==> extra[0].audio == a.samples && extra[0].sampleRate == a.sampleRate)
    {
      if CarriesAudio(t, i, a) {
        forall k | 0 <= k < |es| && EventFor(es[k], i) ensures es[k].audio == a.samples && es[k].sampleRate == a.sampleRate {
          assert t[k] == es[k];
        }
        if |extra| == 1 {
          assert t[|es|] == extra[0];
        }
      }
    }
  }

  /** No event names a segment at or above the bound its events stay under. */
  lemma NoEventAtBound(es: seq<SegmentEvent>, n: nat)
    requires IndicesBelow(es, n)
    ensures !HasEventFor(es, n)
  {
  }

  /** Each entry's file holds its event's audio. */
  predicate FilesHold(s: StreamState, dir: string)
  {
    |s.events| == |s.paths|
    && forall k :: 0 <= k < |s.paths| ==>
         Assistant.PathJoin(dir, s.paths[k].path) in s.files
         && s.files[Assistant.PathJoin(dir, s.paths[k].path)] == s.events[k].audio
  }

  /** Writing segment `n`'s file after segments below `n` keeps every earlier file. */
  lemma FilesStep(s0: StreamState, id: Option<string>, total: nat, n: nat, a: TtsModel.Audio, dir: string)
    requires FilesHold(s0, dir) && AllMirrored(s0, id, total, n)
    ensures var name := SegmentName(id, n);
      FilesHold(StreamState(s0.events + [SegmentEvent(IdValue(id), n, total, a.samples, a.sampleRate)],
                            s0.paths + [Assistant.AudioPath(n, name, Some(JNum(a.sampleRate)))],
                            s0.files[Assistant.PathJoin(dir, name) := a.samples]), dir)
  {
    var added := Assistant.PathJoin(dir, SegmentName(id, n));
    forall k | 0 <= k < |s0.paths|
      ensures Assistant.PathJoin(dir, s0.paths[k].path) != added
    {
      assert Mirrors(s0.events[k], s0.paths[k], id, total, n);
      if Assistant.PathJoin(dir, s0.paths[k].path) == added {
        SegmentPathsDistinct(dir, id, s0.events[k].segmentIndex, n);
      }
    }
  }

  /** Each entry's file holds its event's audio: no later segment overwrites an earlier one. */
  lemma {:induction false} StreamFilesWritten(id: Option<string>, outs: seq<Option<TtsModel.Audio>>, total: nat,
                                             dir: string, files: Assistant.Files)
    ensures FilesHold(AudioStream(id, outs, total, dir, files), dir)
    decreases |outs|
  {
    if |outs| > 0 {
      var n := |outs| - 1;
      var init := outs[..n];
      StreamFilesWritten(id, init, total, dir, files);
      StreamEntriesMatch(id, init, total, dir, files);
      if outs[n].Some? {
        FilesStep(AudioStream(id, init, total, dir, files), id, total, n, outs[n].value, dir);
      }
    }
  }

  /** The audio of the events, in order. */
  function EventAudio(es: seq<SegmentEvent>): (r: seq<Assistant.Audio>)
    ensures |r| == |es| && forall k :: 0 <= k < |es| ==> r[k] == es[k].audio
  {
    seq(|es|, k requires 0 <= k < |es| => es[k].audio)
  }

  /**
   * The stream and the merge fit together: the merge step, given the
   * collected `audio_paths` and the files the stream wrote, joins exactly
   * the streamed audio in the order it was streamed, at the first event's
   * sample rate; it writes nothing when no segment produced audio or that
   * rate is not positive.
   */
  lemma StreamThenMerge(id: string, outs: seq<Option<TtsModel.Audio>>, dir: string, files: Assistant.Files)
    ensures var s := AudioStream(Some(id), outs, |outs|, dir, files);
      var plan := Assistant.PlanMerge(id, s.paths, dir, s.files);
      && (plan.None? <==> |s.events| == 0 || s.events[0].sampleRate <= 0)
      && (plan.Some? ==> plan.value.audio == Assistant.Flatten(EventAudio(s.events))
                         && plan.value.rate == JNum(s.events[0].sampleRate)
                         && plan.value.path == Assistant.PathJoin(dir, Assistant.MergedName(id)))
  {
    StreamEntriesMatch(Some(id), outs, |outs|, dir, files);
    StreamIndicesIncrease(Some(id), outs, |outs|, dir, files);
    StreamFilesWritten(Some(id), outs, |outs|, dir, files);
    MergeOfStream(id, AudioStream(Some(id), outs, |outs|, dir, files), |outs|, dir);
  }

  lemma MergeOfStream(id: string, s: StreamState, n: nat, dir: string)
    requires AllMirrored(s, Some(id), n, n) && Increasing(s.events) && FilesHold(s, dir)
    ensures var plan := Assistant.PlanMerge(id, s.paths, dir, s.files);
      && (plan.None? <==> |s.events| == 0 || s.events[0].sampleRate <= 0)
      && (plan.Some? ==> plan.value.audio == Assistant.Flatten(EventAudio(s.events))
                         && plan.value.rate == JNum(s.events[0].sampleRate)
                         && plan.value.path == Assistant.PathJoin(dir, Assistant.MergedName(id)))
  {
    PathsSorted(s, Some(id), n);
    PlanOfSorted(id, s.paths, dir, s.files);
    ReadsAreEvents(s, dir);
    if |s.events| > 0 {
      assert Mirrors(s.events[0], s.paths[0], Some(id), n, n);
    }
  }

  /** On already sorted paths the merge plan reads the paths in their given order. */
  lemma PlanOfSorted(id: string, paths: seq<Assistant.AudioPath>, dir: string, files: Assistant.Files)
    requires Assistant.SortedByIndex(paths)
    ensures Assistant.PlanMerge(id, paths, dir, files)
         == if |paths| == 0 then None
            else
              var segs := Assistant.Reads(paths, dir, files);
              var rate := Assistant.FirstRate(paths);
              if |segs| == 0 || !(rate.JNum? && rate.n > 0) then None
              else Some(Assistant.Merge(Assistant.PathJoin(dir, Assistant.MergedName(id)), Assistant.Flatten(segs), rate))
  {
    Assistant.SortedUnchanged(paths);
  }

  /** Entries mirroring increasing events are sorted by index. */
  lemma PathsSorted(s: StreamState, id: Option<string>, n: nat)
    requires AllMirrored(s, id, n, n) && Increasing(s.events)
    ensures Assistant.SortedByIndex(s.paths)
  {
    forall i, j | 0 <= i < j < |s.paths|
      ensures s.paths[i].segmentIndex <= s.paths[j].segmentIndex
    {
      assert Mirrors(s.events[i], s.paths[i], id, n, n);
      assert Mirrors(s.events[j], s.paths[j], id, n, n);
    }
  }

  /** Reading back the entries' files gives the events' audio. */
  lemma ReadsAreEvents(s: StreamState, dir: string)
    requires FilesHold(s, dir)
    ensures Assistant.Reads(s.paths, dir, s.files) == EventAudio(s.events)
  {
    Assistant.ReadsAll(s.paths, dir, s.files);
  }

  // ---------------------------------------------------------------------------
  // Prompts of the image and mixed processors
  // ---------------------------------------------------------------------------

  /** Python's truthiness of an optional message. */
  predicate Given(message: Option<string>)
  {
    message.Some? && message.value != ""
  }

  /** `message or ""`. */
  function TextOr(message: Option<string>): string
  {
    if Given(message) then message.value else ""
  }

  /** The prompt of `ImageMessageProcessor.process` (message_processor.py:256-258). */
  function ImagePrompt(message: Option<string>): (r: string)
    ensures Given(message) <==> |r| > |"用户发送了一张图片。图片内容: " + ImageDescription|
  {
    "用户发送了一张图片。图片内容: " + ImageDescription + (if Given(message) then "。用户还附带了消息: " + message.value else "")
  }

  /** The image prompt always starts with the description and ends with the message when there is one. */
  lemma ImagePromptParts(message: Option<string>)
    ensures StartsWith(ImagePrompt(message), "用户发送了一张图片。图片内容: " + ImageDescription)
    ensures Given(message) ==> EndsWith(ImagePrompt(message), "。用户还附带了消息: " + message.value)
    ensures !Given(message) ==> ImagePrompt(message) == "用户发送了一张图片。图片内容: " + ImageDescription
  {
    var head := "用户发送了一张图片。图片内容: " + ImageDescription;
    assert ImagePrompt(message)[..|head|] == head;
  }

  /** The description of one uploaded file in a mixed message, if it gets one. */
  function Describe(f: Upload, transcript: Option<string>): Option<string>
  {
    if Contains(f.contentType, "image") then Some("图像: " + ImageDescription)
    else if Contains(f.contentType, "audio") && Given(transcript) then Some("语音内容: " + transcript.value)
    else None
  }

  /** `file_descriptions` after the first |files| files; `transcripts[k]` is what the k-th file's audio transcribes to. */
  function Descriptions(files: seq<Upload>, transcripts: seq<Option<string>>): (r: seq<string>)
    requires |transcripts| == |files|
    ensures |r| <= |files|
  {
    if |files| == 0 then []
    else
      var n := |files| - 1;
      var d := Describe(files[n], transcripts[n]);
      Descriptions(files[..n], transcripts[..n]) + (if d.Some? then [d.value] else [])
  }

  /**
   * After the first `i` files: every image among them is stored under its
   * drawn id, and nothing else was added to the image store.
   */
  predicate ImagesStored(stored: Assistant.Files, images: Assistant.Files, files: seq<Upload>,
                         imageIds: seq<string>, i: nat, dir: string)
    requires i <= |files| == |imageIds|
  {
    && (forall k :: 0 <= k < i && Contains(files[k].contentType, "image") ==>
          Assistant.PathJoin(dir, imageIds[k] + ".jpg") in stored)
    && (forall p :: p in stored && p !in images ==>
          exists k :: 0 <= k < i && Contains(files[k].contentType, "image")
                      && p == Assistant.PathJoin(dir, imageIds[k] + ".jpg"))
  }

  lemma ImagesStoredStep(stored: Assistant.Files, images: Assistant.Files, files: seq<Upload>,
                         imageIds: seq<string>, i: nat, dir: string, bytes: seq<int>)
    requires i < |files| == |imageIds|
    requires ImagesStored(stored, images, files, imageIds, i, dir)
    ensures var stored' := if Contains(files[i].contentType, "image")
                           then stored[Assistant.PathJoin(dir, imageIds[i] + ".jpg") := bytes] else stored;
      ImagesStored(stored', images, files, imageIds, i + 1, dir)
  {
  }

  lemma DescriptionsStep(files: seq<Upload>, transcripts: seq<Option<string>>, i: nat)
    requires |transcripts| == |files| && i < |files|
    ensures var d := Describe(files[i], transcripts[i]);
      Descriptions(files[..i + 1], transcripts[..i + 1])
        == Descriptions(files[..i], transcripts[..i]) + (if d.Some? then [d.value] else [])
  {
    assert files[..i + 1][..i] == files[..i] && transcripts[..i + 1][..i] == transcripts[..i];
  }

  /** The composite prompt of `MixedMessageProcessor.process` (message_processor.py:309-314). */
  function CompositePrompt(descriptions: seq<string>, message: Option<string>): string
  {
    (if |descriptions| > 0 then "用户发送了以下内容: " + Join("; ", descriptions) + ". " else "")
    + (if Given(message) then "用户消息: " + message.value else "")
  }

  /**
   * Each description comes from an image file or from an audio file with a
   * non-empty transcript; files that are neither, and silent audio, add
   * nothing.
   */
  lemma {:induction false} DescriptionsFromFiles(files: seq<Upload>, transcripts: seq<Option<string>>)
    requires |transcripts| == |files|
    ensures forall d :: d in Descriptions(files, transcripts) ==>
      d == "图像: " + ImageDescription
      || exists k :: 0 <= k < |files| && Given(transcripts[k]) && d == "语音内容: " + transcripts[k].value
    ensures (forall k :: 0 <= k < |files| ==> Describe(files[k], transcripts[k]).None?) ==> Descriptions(files, transcripts) == []
    decreases |files|
  {
    if |files| > 0 {
      var n := |files| - 1;
      DescriptionsFromFiles(files[..n], transcripts[..n]);
      forall d | d in Descriptions(files[..n], transcripts[..n]) && d != "图像: " + ImageDescription
        ensures exists k :: 0 <= k < |files| && Given(transcripts[k]) && d == "语音内容: " + transcripts[k].value
      {
        var k :| 0 <= k < n && Given(transcripts[..n][k]) && d == "语音内容: " + transcripts[..n][k].value;
        assert transcripts[k] == transcripts[..n][k];
      }
      if forall k :: 0 <= k < |files| ==> Describe(files[k], transcripts[k]).None? {
        forall k | 0 <= k < n
          ensures Describe(files[..n][k], transcripts[..n][k]).None?
        {
          assert files[..n][k] == files[k] && transcripts[..n][k] == transcripts[k];
        }
      }
    }
  }

  /**
   * The composite prompt has its file part exactly when there are
   * descriptions and its message part exactly when a message is given; with
   * neither it is empty, and the text processor then gets no reply.
   */
  lemma CompositePromptParts(descriptions: seq<string>, message: Option<string>)
    ensures |descriptions| > 0 ==>
      StartsWith(CompositePrompt(descriptions, message), "用户发送了以下内容: " + Join("; ", descriptions) + ". ")
    ensures |descriptions| == 0 ==> CompositePrompt(descriptions, message) == (if Given(message) then "用户消息: " + message.value else "")
    ensures Given(message) ==> EndsWith(CompositePrompt(descriptions, message), "用户消息: " + message.value)
    ensures CompositePrompt(descriptions, message) == "" <==> |descriptions| == 0 && !Given(message)
  {
    var head := if |descriptions| > 0 then "用户发送了以下内容: " + Join("; ", descriptions) + ". " else "";
    assert CompositePrompt(descriptions, message)[..|head|] == head;
  }

  // ---------------------------------------------------------------------------
  // The processors
  // ---------------------------------------------------------------------------

  class TextMessageProcessor {
    const db: DatabaseService
    const llm: LlmService.LLMService
    const tts: TtsModel.TextToSpeechModel
    /** `config.AUDIO_STORAGE_DIR`. */
    const audioDir: string

    constructor(db: DatabaseService, llm: LlmService.LLMService, tts: TtsModel.TextToSpeechModel, audioDir: string)
      ensures this.db == db && this.llm == llm && this.tts == tts && this.audioDir == audioDir
    {
      this.db := db;
      this.llm := llm;
      this.tts := tts;
      this.audioDir := audioDir;
    }

    /** `process`: save, ask, save, then answer with the payload or the stream. */
    method Process(message: Option<string>, streamAudio: bool, env: Env) returns (r: Result<Response, string>)
      requires db.Valid()
      modifies db, llm
      ensures db.Valid()
      ensures llm.model == old(llm.model)
      ensures (db.State(), llm.messages, r)
        == TextOutcome(old(db.State()), old(llm.messages), llm.prompt, old(llm.model), message, streamAudio, env)
    {
      var _ := db.SaveMessage("user", MessageContent(message), env.userUuid, env.now, env.dumps);
      var reply: Option<LlmService.Reply> := None;
      if message.Some? {
        reply := llm.GetResponse(message.value, env.post, env.cx);
      }
      if reply.None? {
        return Failure(NoReplyError);
      }
      var english, chinese := reply.value.english, reply.value.chinese;
      var id := db.SaveMessage("assistant", JStr(english), env.assistantUuid, env.now, env.dumps);
      if !streamAudio {
        return Success(Payload(id, english, chinese));
      }
      var segments := TextUtils.SplitTextIntoSegments(english, SegmentMaxLength);
      r := Success(Streaming(id, english, chinese, segments));
    }

    /**
     * The guarded call of `generate_audio_segment` for segment `i`
     * (message_processor.py:101-103, 159-161): a raised error counts as no audio.
     */
    method SynthesiseSegment(ghost speaker: string, segments: seq<string>, i: nat, synth: TtsModel.Synthesizer)
      returns (audioResponse: Option<TtsModel.Audio>)
      requires i < |segments| && tts.speaker == Some(speaker)
      ensures var result := TtsModel.SegmentSpec(Some(speaker), segments[i], synth);
        audioResponse == if result.Success? then result.value else None
      ensures Writable(audioResponse) == Outcomes(speaker, segments, synth)[i]
    {
      var result := tts.GenerateAudioSegment(segments[i], synth);
      OutcomeOfResult(speaker, segments, synth, i, result);
      audioResponse := if result.Success? then result.value else None;
    }

    /** `generate_response_stream`: the lines, the collected `audio_paths`, the files and the merge task. */
    method GenerateResponseStream(id: Option<string>, english: string, chinese: string, segments: seq<string>,
                                  speaker: string, synth: TtsModel.Synthesizer, files: Assistant.Files)
      returns (events: seq<Event>, audioPaths: seq<Assistant.AudioPath>, written: Assistant.Files, task: MergeTask)
      modifies tts
      ensures tts.speaker == Some(speaker)
      ensures (events, audioPaths, written, task) == StreamSpec(id, english, chinese, segments, speaker, synth, audioDir, files)
    {
      events := [TextEvent(IdValue(id), english, chinese)];
      tts.SetSpeaker(speaker);
      audioPaths := [];
      written := files;
      ghost var audio: seq<SegmentEvent> := [];
      ghost var outs := Outcomes(speaker, segments, synth);
      for i := 0 to |segments|
        invariant tts.speaker == Some(speaker)
        invariant StreamState(audio, audioPaths, written) == AudioStream(id, outs[..i], |segments|, audioDir, files)
        invariant events == [TextEvent(IdValue(id), english, chinese)] + AudioLines(audio)
      {
        var audioResponse := SynthesiseSegment(speaker, segments, i, synth);
        AudioStreamStep(id, outs, i, |segments|, audioDir, files);
        if audioResponse.Some? && audioResponse.value.sampleRate > 0 {
          var a := audioResponse.value;
          var name := SegmentName(id, i);
          written := written[Assistant.PathJoin(audioDir, name) := a.samples];
          audioPaths := audioPaths + [Assistant.AudioPath(i, name, Some(JNum(a.sampleRate)))];
          var e := SegmentEvent(IdValue(id), i, |segments|, a.samples, a.sampleRate);
          LinesSnoc(TextEvent(IdValue(id), english, chinese), audio, e);
          audio := audio + [e];
          events := events + [AudioEvent(e)];
        }
      }
      assert outs[..|segments|] == outs;
      task := MergeTask(id, audioPaths, audioDir);
    }
  }

  class VoiceMessageProcessor {
    const text: TextMessageProcessor

    constructor(text: TextMessageProcessor)
      ensures this.text == text
    {
      this.text := text;
    }

    /**
     * `VoiceMessageProcessor.process` (message_processor.py:179-218):
     * `transcript` is what the first file transcribes to. Without speech the
     * request is rejected with 400 and nothing is saved; otherwise the
     * transcript is saved as a voice message and processed as text.
     */
    method Process(files: seq<Upload>, transcript: Option<string>, streamAudio: bool, voiceUuid: string, env: Env)
      returns (r: Result<Response, string>)
      requires |files| > 0
      requires text.db.Valid()
      modifies text.db, text.llm
      ensures text.db.Valid()
      ensures !Given(transcript) ==>
        r == Success(Rejected(400, NoSpeechError)) && text.db.State() == old(text.db.State())
        && text.llm.messages == old(text.llm.messages)
      ensures Given(transcript) ==>
        var t1 := SavedMessage(old(text.db.State()), "user",
                               JObj(map["type" := JStr("voice"), "text" := JStr(transcript.value)]),
                               voiceUuid, env.now, env.dumps).0;
        (text.db.State(), text.llm.messages, r)
          == TextOutcome(t1, old(text.llm.messages), text.llm.prompt, old(text.llm.model), transcript, streamAudio, env)
    {
      if !Given(transcript) {
        return Success(Rejected(400, NoSpeechError));
      }
      var _ := text.db.SaveMessage("user", JObj(map["type" := JStr("voice"), "text" := JStr(transcript.value)]),
                                   voiceUuid, env.now, env.dumps);
      r := text.Process(transcript, streamAudio, env);
    }
  }

  class ImageMessageProcessor {
    const text: TextMessageProcessor
    /** `config.IMAGE_STORAGE_DIR`. */
    const imageDir: string

    constructor(text: TextMessageProcessor, imageDir: string)
      ensures this.text == text && this.imageDir == imageDir
    {
      this.text := text;
      this.imageDir := imageDir;
    }

    /**
     * `ImageMessageProcessor.process` (message_processor.py:222-271): the
     * first file is stored as `{imageId}.jpg`, the user message records it,
     * and the image prompt is processed as text.
     */
    method Process(files: seq<Upload>, data: seq<int>, message: Option<string>, streamAudio: bool,
                   imageId: string, imageUuid: string, images: Assistant.Files, env: Env)
      returns (r: Result<Response, string>, stored: Assistant.Files)
      requires |files| > 0
      requires text.db.Valid()
      modifies text.db, text.llm
      ensures text.db.Valid()
      ensures var path := Assistant.PathJoin(imageDir, imageId + ".jpg");
        && stored == images[path := data]
        && var t1 := SavedMessage(old(text.db.State()), "user",
                                  JObj(map["type" := JStr("image"), "text" := JStr(TextOr(message)), "image_path" := JStr(path)]),
                                  imageUuid, env.now, env.dumps).0;
           (text.db.State(), text.llm.messages, r)
             == TextOutcome(t1, old(text.llm.messages), text.llm.prompt, old(text.llm.model),
                            Some(ImagePrompt(message)), streamAudio, env)
    {
      var path := Assistant.PathJoin(imageDir, imageId + ".jpg");
      stored := images[path := data];
      var content := JObj(map["type" := JStr("image"), "text" := JStr(TextOr(message)), "image_path" := JStr(path)]);
      var _ := text.db.SaveMessage("user", content, imageUuid, env.now, env.dumps);
      r := text.Process(Some(ImagePrompt(message)), streamAudio, env);
    }
  }

  class MixedMessageProcessor {
    const text: TextMessageProcessor
    /** `config.IMAGE_STORAGE_DIR`. */
    const imageDir: string

    constructor(text: TextMessageProcessor, imageDir: string)
      ensures this.text == text && this.imageDir == imageDir
    {
      this.text := text;
      this.imageDir := imageDir;
    }

    /**
     * The file loop of `MixedMessageProcessor.process`
     * (message_processor.py:287-307): image files are stored under their
     * drawn id and described, audio files contribute their transcript when
     * it is not empty.
     */
    method DescribeFiles(files: seq<Upload>, data: seq<seq<int>>, transcripts: seq<Option<string>>,
                         imageIds: seq<string>, images: Assistant.Files)
      returns (descriptions: seq<string>, stored: Assistant.Files)
      requires |data| == |transcripts| == |imageIds| == |files|
      ensures descriptions == Descriptions(files, transcripts)
      ensures forall k :: 0 <= k < |files| && Contains(files[k].contentType, "image") ==>
        Assistant.PathJoin(imageDir, imageIds[k] + ".jpg") in stored
      ensures forall p :: p in stored && p !in images ==>
        exists k :: 0 <= k < |files| && Contains(files[k].contentType, "image")
                    && p == Assistant.PathJoin(imageDir, imageIds[k] + ".jpg")
    {
      descriptions := [];
      stored := images;
      for i := 0 to |files|
        invariant descriptions == Descriptions(files[..i], transcripts[..i])
        invariant ImagesStored(stored, images, files, imageIds, i, imageDir)
      {
        DescriptionsStep(files, transcripts, i);
        ImagesStoredStep(stored, images, files, imageIds, i, imageDir, data[i]);
        var f := files[i];
        if Contains(f.contentType, "image") {
          stored := stored[Assistant.PathJoin(imageDir, imageIds[i] + ".jpg") := data[i]];
          descriptions := descriptions + ["图像: " + ImageDescription];
        } else if Contains(f.contentType, "audio") {
          if Given(transcripts[i]) {
            descriptions := descriptions + ["语音内容: " + transcripts[i].value];
          }
        }
      }
      assert files[..|files|] == files && transcripts[..|files|] == transcripts;
    }

    /** `MixedMessageProcessor.process` (message_processor.py:275-339). */
    method Process(files: seq<Upload>, data: seq<seq<int>>, transcripts: seq<Option<string>>, imageIds: seq<string>,
                   message: Option<string>, streamAudio: bool, mixedUuid: string, images: Assistant.Files, env: Env)
      returns (r: Result<Response, string>, stored: Assistant.Files)
      requires |data| == |transcripts| == |imageIds| == |files|
      requires text.db.Valid()
      modifies text.db, text.llm
      ensures text.db.Valid()
      ensures var ds := Descriptions(files, transcripts);
        var prompt := CompositePrompt(ds, message);
        var t1 := SavedMessage(old(text.db.State()), "user",
                               JObj(map["type" := JStr("mixed"), "text" := JStr(TextOr(message)),
                                        "composite_prompt" := JStr(prompt),
                                        "file_descriptions" := JArr(seq(|ds|, k requires 0 <= k < |ds| => JStr(ds[k])))]),
                               mixedUuid, env.now, env.dumps).0;
        (text.db.State(), text.llm.messages, r)
          == TextOutcome(t1, old(text.llm.messages), text.llm.prompt, old(text.llm.model), Some(prompt), streamAudio, env)
    {
      var ds;
      ds, stored := DescribeFiles(files, data, transcripts, imageIds, images);
      var prompt := CompositePrompt(ds, message);
      var content := JObj(map["type" := JStr("mixed"), "text" := JStr(TextOr(message)),
                              "composite_prompt" := JStr(prompt),
                              "file_descriptions" := JArr(seq(|ds|, k requires 0 <= k < |ds| => JStr(ds[k])))]);
      var _ := text.db.SaveMessage("user", content, mixedUuid, env.now, env.dumps);
      r := text.Process(Some(prompt), streamAudio, env);
    }
  }
}
