/**
 * The chat hook of the front end (front-end/src/hooks/useChat.js): the
 * message list with its duplicate guards and 20-entry window, and the chat
 * request that reads the newline-delimited JSON reply and applies each event
 * to the hook's state.
 */
module UseChat {
  import opened Wrappers
  import opened Json
  import opened Strs
  import opened Framing
  import MessageUtils

  datatype ChatMessage = ChatMessage(id: string, role: string, content: Value, timestamp: int)

  /** The hook's state: the recent-id window (a ref), the messages, the flags. */
  datatype Hook = Hook(recentIds: seq<string>, messages: seq<ChatMessage>, isProcessing: bool, error: Option<string>)

  const IdWindow: nat := 20
  const MessageWindow: nat := 20

  /** JavaScript truthiness: unlike Python, empty arrays and objects are truthy. */
  predicate JsTruthy(v: Value)
  {
    match v
    case JNull => false
    case JBool(b) => b
    case JNum(n) => n != 0
    case JStr(s) => s != ""
    case JArr(_) => true
    case JObj(_) => true
  }

  /** `x || d` where `x` may be undefined (None). */
  function OrElse(x: Option<Value>, d: Value): (r: Value)
    ensures x.Some? && JsTruthy(x.value) ==> r == x.value
    ensures !(x.Some? && JsTruthy(x.value)) ==> r == d
  {
    if x.Some? && JsTruthy(x.value) then x.value else d
  }

  /**
   * The stored content (useChat.js:41-45): a string is kept, anything else
   * becomes `{english, chinese, audio}` read from it with defaults. None when
   * the content is null or undefined, where reading `.english` throws.
   */
  function Normalise(content: Option<Value>): Option<Value>
  {
    match content
    case None => None
    case Some(JNull) => None
    case Some(JStr(s)) => Some(JStr(s))
    case Some(c) =>
      Some(JObj(map[
        "english" := OrElse(Get(c, "english"), JStr("")),
        "chinese" := OrElse(Get(c, "chinese"), JStr("")),
        "audio" := OrElse(Get(c, "audio"), JNull)]))
  }

  /** `typeof v === 'object'` for a value that is not null. */
  predicate IsObject(v: Value)
  {
    v.JObj? || v.JArr?
  }

  /** The content comparison of useChat.js:56-60. */
  predicate SameContent(last: Value, next: Value)
  {
    (IsObject(last) && IsObject(next) && Get(last, "english") == Get(next, "english"))
    || (last.JStr? && last == next)
  }

  /** The new message repeats the last one: same role and same content. */
  predicate Repeats(prev: seq<ChatMessage>, m: ChatMessage)
  {
    |prev| > 0 && prev[|prev| - 1].role == m.role && SameContent(prev[|prev| - 1].content, m.content)
  }

  /** `push(id)` then `shift()` once the window is over 20 (useChat.js:31-35). */
  function RecordId(ids: seq<string>, id: string): seq<string>
  {
    var pushed := ids + [id];
    if |pushed| > IdWindow then pushed[1..] else pushed
  }

  /** The `setMessages` updater (useChat.js:37-76). */
  function AppendMessage(prev: seq<ChatMessage>, m: ChatMessage): seq<ChatMessage>
  {
    if Repeats(prev, m) then prev else LastN(prev + [m], MessageWindow)
  }

  /** The id `addMessage` uses: the given one when truthy, else the generated one. */
  function ChooseId(messageId: string, generated: string): string
  {
    if messageId != "" then messageId else generated
  }

  /** `addMessage(role, content, messageId)` (useChat.js:18-77). */
  function AddMessageSpec(h: Hook, role: string, content: Option<Value>, messageId: string, generated: string, now: int): Hook
  {
    var id := ChooseId(messageId, generated);
    if id in h.recentIds then h
    else
      var recorded := h.(recentIds := RecordId(h.recentIds, id));
      match Normalise(content)
      case None => recorded
      case Some(c) => recorded.(messages := AppendMessage(h.messages, ChatMessage(id, role, c, now)))
  }

  predicate WindowBounded(h: Hook)
  {
    |h.recentIds| <= IdWindow
  }

  /** The id window keeps at most 20 ids, the new one last, dropping the oldest. */
  lemma RecordIdWindow(ids: seq<string>, id: string)
    requires |ids| <= IdWindow
    ensures var r := RecordId(ids, id);
      && |r| <= IdWindow && r[|r| - 1] == id
      && r == (if |ids| == IdWindow then ids[1..] else ids) + [id]
  {
  }

  /** An id already in the window is rejected and nothing changes. */
  lemma SeenIdRejected(h: Hook, role: string, content: Option<Value>, messageId: string, generated: string, now: int)
    requires ChooseId(messageId, generated) in h.recentIds
    ensures AddMessageSpec(h, role, content, messageId, generated, now) == h
  {
  }

  /**
   * A message that repeats the last one (same role, same English text or the
   * same string) is not added, but its id is still recorded.
   */
  lemma RepeatNotAdded(h: Hook, role: string, content: Option<Value>, messageId: string, generated: string, now: int)
    requires ChooseId(messageId, generated) !in h.recentIds
    requires Normalise(content).Some?
    requires Repeats(h.messages, ChatMessage(ChooseId(messageId, generated), role, Normalise(content).value, now))
    ensures var r := AddMessageSpec(h, role, content, messageId, generated, now);
      r.messages == h.messages && r.recentIds == RecordId(h.recentIds, ChooseId(messageId, generated))
  {
  }

  /**
   * A new message is added last and the list keeps its 20 newest entries,
   * the earlier ones in their order.
   */
  lemma NewMessageAddedLast(h: Hook, role: string, content: Option<Value>, messageId: string, generated: string, now: int)
    requires ChooseId(messageId, generated) !in h.recentIds
    requires Normalise(content).Some?
    requires !Repeats(h.messages, ChatMessage(ChooseId(messageId, generated), role, Normalise(content).value, now))
    ensures var r := AddMessageSpec(h, role, content, messageId, generated, now);
      var m := ChatMessage(ChooseId(messageId, generated), role, Normalise(content).value, now);
      && |r.messages| <= MessageWindow && r.messages[|r.messages| - 1] == m
      && r.messages[..|r.messages| - 1] == h.messages[|h.messages| + 1 - |r.messages|..]
  {
    var m := ChatMessage(ChooseId(messageId, generated), role, Normalise(content).value, now);
    var all := h.messages + [m];
    var r := LastN(all, MessageWindow);
    assert r == all[|all| - |r|..];
    assert r[..|r| - 1] == all[|all| - |r|..|all| - 1];
  }

  /** Object content is normalised to `english`/`chinese` defaulting to '' and `audio` defaulting to null. */
  lemma ObjectContentNormalised(c: Value)
    requires !c.JNull? && !c.JStr?
    ensures var n := Normalise(Some(c));
      && n.Some? && n.value.JObj? && n.value.fields.Keys == {"english", "chinese", "audio"}
      && n.value.fields["english"] == (if Get(c, "english").Some? && JsTruthy(Get(c, "english").value) then Get(c, "english").value else JStr(""))
      && n.value.fields["chinese"] == (if Get(c, "chinese").Some? && JsTruthy(Get(c, "chinese").value) then Get(c, "chinese").value else JStr(""))
      && n.value.fields["audio"] == (if Get(c, "audio").Some? && JsTruthy(Get(c, "audio").value) then Get(c, "audio").value else JNull)
  {
  }

  /** A fresh id is recorded in the window whether or not the message is added. */
  lemma AddedIdRecorded(h: Hook, role: string, content: Option<Value>, messageId: string, generated: string, now: int)
    requires ChooseId(messageId, generated) !in h.recentIds
    ensures AddMessageSpec(h, role, content, messageId, generated, now).recentIds
      == RecordId(h.recentIds, ChooseId(messageId, generated))
  {
  }

  /** `addMessage` keeps the id window within 20 entries. */
  lemma AddMessageKeepsWindow(h: Hook, role: string, content: Option<Value>, messageId: string, generated: string, now: int)
    requires WindowBounded(h)
    ensures WindowBounded(AddMessageSpec(h, role, content, messageId, generated, now))
  {
  }

  // ---------------------------------------------------------------------------
  // The chat request
  // ---------------------------------------------------------------------------

  /** The template-literal rendering of a value (`${x}`); None is `undefined`. */
  function Show(v: Option<Value>): string
  {
    match v
    case None => "undefined"
    case Some(x) => ShowValue(x)
  }

  function ShowValue(v: Value): string
    decreases v, 1
  {
    match v
    case JNull => "null"
    case JBool(b) => if b then "true" else "false"
    case JNum(n) => if n < 0 then "-" + Decimal(-n) else Decimal(n)
    case JStr(s) => s
    case JArr(items) => ShowItems(items)
    case JObj(_) => "[object Object]"
  }

  /** `Array.prototype.join(',')`, null elements shown as empty. */
  function ShowItems(items: seq<Value>): string
    decreases items, 0
  {
    if |items| == 0 then ""
    else
      var head := if items[0].JNull? then "" else ShowValue(items[0]);
      if |items| == 1 then head else head + "," + ShowItems(items[1..])
  }

  const RequestFailed: string := "聊天请求失败: "
  const ServerError: string := "服务器错误: "
  const AudioError: string := "音频处理错误: "

  /** What `fetch` and the reader deliver. */
  datatype Response =
    | Rejected(status: nat)                            // `!response.ok`
    | Thrown(message: string)                          // `fetch` itself failed
    | Streamed(chunks: seq<string>, failure: Option<string>) // decoded reads, then maybe a reader error

  /** The request's running state: the hook, `assistantMessageId` ("" for null) and the number of `addMessage` calls. */
  datatype Session = Session(hook: Hook, assistantId: string, adds: nat)

  /** `data.message_id` when it is a non-empty string; "" otherwise. */
  function MessageIdOf(data: Value): string
  {
    match GetStr(data, "message_id")
    case Some(s) => s
    case None => ""
  }

  /**
   * One parsed event of the reply (useChat.js:125-159): `text` adds the
   * assistant message under the reply's id, `audio_complete` clears the busy
   * flag, `error` records the error text; other types only log.
   */
  function EventEffect(s: Session, data: Value, gen: nat -> string, clock: nat -> int): Session
  {
    var kind := GetStr(data, "type");
    if kind == Some("text") then
      var id := MessageIdOf(data);
      Session(AddMessageSpec(s.hook, "assistant", Get(data, "content"), id, gen(s.adds), clock(s.adds)), id, s.adds + 1)
    else if kind == Some("audio_complete") then
      s.(hook := s.hook.(isProcessing := false))
    else if kind == Some("error") then
      s.(hook := s.hook.(error := Some(AudioError + Show(Get(data, "message")))))
    else s
  }

  /** One complete line of the reply (useChat.js:120-162): blank lines and lines that do not parse are skipped. */
  function LineEffect(s: Session, line: string, parse: MessageUtils.Parser, gen: nat -> string, clock: nat -> int): Session
  {
    if Strip(line) == "" then s
    else
      match parse(line)
      case None => s
      case Some(data) => EventEffect(s, data, gen, clock)
  }

  /**
   * The `audio` branch (useChat.js:139-141): an event without a truthy
   * `message_id` is given the reply's id. The patched event is not passed on.
   */
  function PatchAudio(data: Value, assistantId: string): (r: Value)
    ensures data.JObj? && !JsTruthy(OrElse(Get(data, "message_id"), JNull)) && assistantId != ""
      ==> Get(r, "message_id") == Some(JStr(assistantId))
    ensures !(data.JObj? && !JsTruthy(OrElse(Get(data, "message_id"), JNull)) && assistantId != "") ==> r == data
  {
    if data.JObj? && !JsTruthy(OrElse(Get(data, "message_id"), JNull)) && assistantId != "" then
      Set(data, "message_id", JStr(assistantId))
    else data
  }

  function LinesEffect(s: Session, lines: seq<string>, parse: MessageUtils.Parser, gen: nat -> string, clock: nat -> int): Session
  {
    if |lines| == 0 then s
    else LineEffect(LinesEffect(s, lines[..|lines| - 1], parse, gen, clock), lines[|lines| - 1], parse, gen, clock)
  }

  lemma LinesEffectSnoc(s: Session, lines: seq<string>, line: string, parse: MessageUtils.Parser, gen: nat -> string, clock: nat -> int)
    ensures LinesEffect(s, lines + [line], parse, gen, clock)
      == LineEffect(LinesEffect(s, lines, parse, gen, clock), line, parse, gen, clock)
  {
    assert (lines + [line])[..|lines|] == lines;
  }

  lemma {:induction false} LinesEffectAppend(s: Session, a: seq<string>, b: seq<string>, parse: MessageUtils.Parser, gen: nat -> string, clock: nat -> int)
    ensures LinesEffect(s, a + b, parse, gen, clock)
      == LinesEffect(LinesEffect(s, a, parse, gen, clock), b, parse, gen, clock)
    decreases |b|
  {
    if |b| == 0 {
      assert a + b == a;
    } else {
      var b', x := b[..|b| - 1], b[|b| - 1];
      assert b == b' + [x];
      assert a + b == (a + b') + [x];
      LinesEffectSnoc(s, a + b', x, parse, gen, clock);
      LinesEffectAppend(s, a, b', parse, gen, clock);
      LinesEffectSnoc(LinesEffect(s, a, parse, gen, clock), b', x, parse, gen, clock);
    }
  }

  /** What the reply does to the hook once the user message is in (useChat.js:89-167). */
  function Answer(asked: Hook, response: Response, parse: MessageUtils.Parser, gen: nat -> string, clock: nat -> int): Hook
  {
    match response
    case Rejected(status) => asked.(error := Some(RequestFailed + ServerError + Decimal(status)))
    case Thrown(m) => asked.(error := Some(RequestFailed + m))
    case Streamed(chunks, failure) =>
      var after := LinesEffect(Session(asked, "", 1), CompleteLines(Concat(chunks)), parse, gen, clock).hook;
      if failure.Some? then after.(error := Some(RequestFailed + failure.value)) else after
  }

  /** The user message is added first, with a generated id (useChat.js:81-86). */
  function Ask(h: Hook, message: string, gen: nat -> string, clock: nat -> int): Hook
  {
    AddMessageSpec(h.(isProcessing := true, error := None), "user", Some(JStr(message)), "", gen(0), clock(0))
  }

  /** `handleChatRequest(message)` (useChat.js:80-171). */
  function RequestSpec(h: Hook, message: string, response: Response, parse: MessageUtils.Parser, gen: nat -> string, clock: nat -> int): Hook
  {
    Answer(Ask(h, message, gen, clock), response, parse, gen, clock).(isProcessing := false)
  }

  /** A reply line keeps the id window within 20 entries. */
  lemma LineKeepsWindow(s: Session, line: string, parse: MessageUtils.Parser, gen: nat -> string, clock: nat -> int)
    requires WindowBounded(s.hook)
    ensures WindowBounded(LineEffect(s, line, parse, gen, clock).hook)
  {
    if Strip(line) != "" && parse(line).Some? {
      var data := parse(line).value;
      assert LineEffect(s, line, parse, gen, clock) == EventEffect(s, data, gen, clock);
      AddMessageKeepsWindow(s.hook, "assistant", Get(data, "content"), MessageIdOf(data), gen(s.adds), clock(s.adds));
    }
  }

  /** The reply's lines keep the id window within 20 entries. */
  lemma {:induction false} LinesKeepWindow(s: Session, lines: seq<string>, parse: MessageUtils.Parser, gen: nat -> string, clock: nat -> int)
    requires WindowBounded(s.hook)
    ensures WindowBounded(LinesEffect(s, lines, parse, gen, clock).hook)
    decreases |lines|
  {
    if |lines| > 0 {
      LinesKeepWindow(s, lines[..|lines| - 1], parse, gen, clock);
      LineKeepsWindow(LinesEffect(s, lines[..|lines| - 1], parse, gen, clock), lines[|lines| - 1], parse, gen, clock);
    }
  }

  /**
   * Whatever the reply, the request ends with the busy flag cleared and the id
   * window within 20 entries.
   */
  lemma RequestEndsIdle(h: Hook, message: string, response: Response, parse: MessageUtils.Parser, gen: nat -> string, clock: nat -> int)
    requires WindowBounded(h)
    ensures var r := RequestSpec(h, message, response, parse, gen, clock);
      !r.isProcessing && WindowBounded(r)
  {
    var asked := Ask(h, message, gen, clock);
    AddMessageKeepsWindow(h.(isProcessing := true, error := None), "user", Some(JStr(message)), "", gen(0), clock(0));
    if response.Streamed? {
      LinesKeepWindow(Session(asked, "", 1), CompleteLines(Concat(response.chunks)), parse, gen, clock);
    }
  }

  /** A rejected request records the server's status after the request-failed prefix. */
  lemma RejectedRecordsStatus(h: Hook, message: string, status: nat, parse: MessageUtils.Parser, gen: nat -> string, clock: nat -> int)
    ensures RequestSpec(h, message, Rejected(status), parse, gen, clock).error
      == Some("聊天请求失败: 服务器错误: " + Decimal(status))
  {
    assert RequestFailed + ServerError + Decimal(status) == "聊天请求失败: 服务器错误: " + Decimal(status);
  }

  /** A `text` event makes its `message_id` the reply's id and records that id. */
  lemma TextEventRecordsId(s: Session, data: Value, gen: nat -> string, clock: nat -> int)
    requires GetStr(data, "type") == Some("text")
    requires WindowBounded(s.hook) && MessageIdOf(data) != "" && MessageIdOf(data) !in s.hook.recentIds
    ensures var t := EventEffect(s, data, gen, clock);
      && t.assistantId == MessageIdOf(data)
      && MessageIdOf(data) in t.hook.recentIds
      && t.adds == s.adds + 1
  {
    var id := MessageIdOf(data);
    AddedIdRecorded(s.hook, "assistant", Get(data, "content"), id, gen(s.adds), clock(s.adds));
    RecordIdWindow(s.hook.recentIds, id);
    var r := RecordId(s.hook.recentIds, id);
    assert r[|r| - 1] == id;
  }

  class ChatHook {
    var recentIds: seq<string>
    var messages: seq<ChatMessage>
    var isProcessing: bool
    var error: Option<string>

    function State(): Hook
      reads this
    {
      Hook(recentIds, messages, isProcessing, error)
    }

    /** The hook's first render: the saved messages, an empty id window (useChat.js:5-15). */
    constructor(saved: seq<ChatMessage>)
      ensures State() == Hook([], saved, false, None)
    {
      recentIds := [];
      messages := saved;
      isProcessing := false;
      error := None;
    }

    /** `addMessage` (useChat.js:18-77); `generated` and `now` stand for the id generator and the clock. */
    method AddMessage(role: string, content: Option<Value>, messageId: string, generated: string, now: int)
      modifies this
      ensures State() == AddMessageSpec(old(State()), role, content, messageId, generated, now)
    {
      var id := if messageId != "" then messageId else generated;
      if id in recentIds {
        return;
      }
      PushRecentId(id);
      var normalised := Normalise(content);
      if normalised.None? {
        return;
      }
      PushMessage(ChatMessage(id, role, normalised.value, now));
    }

    /** The id window update (useChat.js:24-28): push, then drop the oldest past 20. */
    method PushRecentId(id: string)
      modifies this
      ensures recentIds == RecordId(old(recentIds), id)
      ensures messages == old(messages) && isProcessing == old(isProcessing) && error == old(error)
    {
      recentIds := recentIds + [id];
      if |recentIds| > IdWindow {
        recentIds := recentIds[1..];
      }
    }

    /** The `setMessages` updater (useChat.js:37-76): skip a repeat, else append and keep the last 20. */
    method PushMessage(m: ChatMessage)
      modifies this
      ensures messages == AppendMessage(old(messages), m)
      ensures recentIds == old(recentIds) && isProcessing == old(isProcessing) && error == old(error)
    {
      if |messages| > 0 && messages[|messages| - 1].role == m.role && SameContent(messages[|messages| - 1].content, m.content) {
        return;
      }
      var updated := messages + [m];
      if |updated| > MessageWindow {
        updated := updated[|updated| - MessageWindow..];
      }
      messages := updated;
    }

    /** Applies the complete lines of one read (useChat.js:119-163). */
    method HandleLines(lines: seq<string>, assistantId: string, adds: nat,
                       parse: MessageUtils.Parser, gen: nat -> string, clock: nat -> int)
      returns (assistantId': string, adds': nat)
      modifies this
      ensures Session(State(), assistantId', adds')
        == LinesEffect(Session(old(State()), assistantId, adds), lines, parse, gen, clock)
    {
      assistantId', adds' := assistantId, adds;
      for j := 0 to |lines|
        invariant Session(State(), assistantId', adds')
          == LinesEffect(Session(old(State()), assistantId, adds), lines[..j], parse, gen, clock)
      {
        LinesEffectSnoc(Session(old(State()), assistantId, adds), lines[..j], lines[j], parse, gen, clock);
        assert lines[..j + 1] == lines[..j] + [lines[j]];
        assistantId', adds' := HandleLine(lines[j], assistantId', adds', parse, gen, clock);
      }
      assert lines[..|lines|] == lines;
    }

    /** The body of the line loop (useChat.js:120-160): one complete line. */
    method HandleLine(line: string, assistantId: string, adds: nat,
                      parse: MessageUtils.Parser, gen: nat -> string, clock: nat -> int)
      returns (assistantId': string, adds': nat)
      modifies this
      ensures Session(State(), assistantId', adds')
        == LineEffect(Session(old(State()), assistantId, adds), line, parse, gen, clock)
    {
      assistantId', adds' := assistantId, adds;
      if Strip(line) == "" {
        return;
      }
      var parsed := parse(line);
      if parsed.None? {
        return;
      }
      assistantId', adds' := HandleEvent(parsed.value, assistantId, adds, gen, clock);
    }

    /** One parsed event of the reply (useChat.js:125-159). */
    method HandleEvent(data: Value, assistantId: string, adds: nat, gen: nat -> string, clock: nat -> int)
      returns (assistantId': string, adds': nat)
      modifies this
      ensures Session(State(), assistantId', adds')
        == EventEffect(Session(old(State()), assistantId, adds), data, gen, clock)
    {
      assistantId', adds' := assistantId, adds;
      var kind := GetStr(data, "type");
      if kind == Some("text") {
        assistantId' := MessageIdOf(data);
        AddMessage("assistant", Get(data, "content"), assistantId', gen(adds'), clock(adds'));
        adds' := adds' + 1;
      } else if kind == Some("audio_complete") {
        isProcessing := false;
      } else if kind == Some("error") {
        error := Some(AudioError + Show(Get(data, "message")));
      }
    }

    /** `handleChatRequest(message)` (useChat.js:80-171) over the response `fetch` delivers. */
    method HandleChatRequest(message: string, response: Response,
                             parse: MessageUtils.Parser, gen: nat -> string, clock: nat -> int)
      modifies this
      ensures State() == RequestSpec(old(State()), message, response, parse, gen, clock)
    {
      isProcessing := true;
      error := None;
      AddMessage("user", Some(JStr(message)), "", gen(0), clock(0));
      ghost var asked := State();
      assert asked == Ask(old(State()), message, gen, clock);
      match response {
      case Rejected(status) =>
        error := Some(RequestFailed + ServerError + Decimal(status));
        assert State() == Answer(asked, response, parse, gen, clock);
      case Thrown(m) =>
        error := Some(RequestFailed + m);
        assert State() == Answer(asked, response, parse, gen, clock);
      case Streamed(chunks, failure) =>
        var buffer := "";
        var assistantId := "";
        var adds := 1;
        for i := 0 to |chunks|
          invariant buffer == Remainder(Concat(chunks[..i]))
          invariant Session(State(), assistantId, adds)
            == LinesEffect(Session(asked, "", 1), CompleteLines(Concat(chunks[..i])), parse, gen, clock)
        {
          ConcatPrefix(chunks, i);
          FrameStep(Concat(chunks[..i]), buffer, chunks[i]);
          LinesEffectAppend(Session(asked, "", 1), CompleteLines(Concat(chunks[..i])),
                            CompleteLines(buffer + chunks[i]), parse, gen, clock);
          buffer := buffer + chunks[i];
          var lines := SplitChar(buffer, '\n');
          assert lines[..|lines| - 1] == CompleteLines(buffer);
          buffer := lines[|lines| - 1];
          assistantId, adds := HandleLines(lines[..|lines| - 1], assistantId, adds, parse, gen, clock);
        }
        assert chunks[..|chunks|] == chunks;
        if failure.Some? {
          error := Some(RequestFailed + failure.value);
        }
        assert State() == Answer(asked, response, parse, gen, clock);
      }
      ghost var answered := State();
      assert answered == Answer(Ask(old(State()), message, gen, clock), response, parse, gen, clock);
      isProcessing := false;
      assert State() == answered.(isProcessing := false);
    }
  }
}
