/**
 * The language-model service of the back end
 * (back-end/services/llm_service.py): a conversation history bounded to the
 * 50 most recent user and assistant turns that always keeps its system
 * messages, the sanitising `set_messages`, the three-attempt request loop,
 * the fallback table, the CJK line filter of the translation extractor and
 * the two-request `get_response` (English answer, then Chinese translation).
 *
 * The HTTP calls are an oracle `Post`; the regex cleaners (`_clean_response`,
 * `_sanitize_for_tts`, the prefix patterns and English-sentence removal of
 * `_extract_chinese_translation`) are parameters.
 */
module LlmService {
  import opened Wrappers
  import opened Json
  import opened Strs

  /** `self.max_history` (llm_service.py:34). */
  const MaxHistory: nat := 50
  /** `max_retries` (llm_service.py:266). */
  const MaxRetries: nat := 2
  /** `OLLAMA_MODEL` of config.py, used when no model is given. */
  const DefaultModel := "phi4:latest"
  /** `_handle_translation_failure`'s Chinese text (llm_service.py:460). */
  const TranslationUnavailable := "抱歉，翻译服务暂时不可用。以上为英文回复。"
  /** The Chinese text used when the extracted translation is empty (llm_service.py:245). */
  const NoChinese := "抱歉，我无法生成适当的中文回应。您能再试一次吗？"

  // The entries of `_get_fallback_response` (llm_service.py:427-450).
  const EmptyEnglish := "I'm sorry, I couldn't generate a proper response. Could you try asking again?"
  const EmptyChinese := "抱歉，我无法生成适当的回应。您能再试一次吗？"
  const ApiEnglishHead := "I'm sorry, there was an error connecting to my language model ("
  const ApiEnglishTail := "). Please try again later."
  const ApiChineseHead := "抱歉，连接到我的语言模型 ("
  const ApiChineseTail := ") 时出现错误。请稍后再试。"
  const TranslationEnglish := "Sorry, there was an error with the translation."
  const TranslationChinese := "抱歉，翻译过程中出现错误。"
  const ExceptionEnglish := "I'm sorry, I encountered an error while processing your request. Please try again."
  const ExceptionChinese := "抱歉，处理您的请求时遇到错误。请再试一次。"

  /** A history entry `{"role": role, "content": content}`. */
  datatype Entry = Entry(role: string, content: Value)

  predicate ValidRole(role: string)
  {
    role == "user" || role == "assistant" || role == "system"
  }

  // ---------------------------------------------------------------------------
  // add_message: append, then keep every system message and the last 50 others
  // ---------------------------------------------------------------------------

  /** `[m for m in ms if (m["role"] == "system") == system]`. */
  function Keep(ms: seq<Entry>, system: bool): (r: seq<Entry>)
    ensures |r| <= |ms|
    ensures forall i :: 0 <= i < |r| ==> (r[i].role == "system") == system && r[i] in ms
  {
    if |ms| == 0 then []
    else
      var last := ms[|ms| - 1];
      Keep(ms[..|ms| - 1], system) + (if (last.role == "system") == system then [last] else [])
  }

  /** The history after `add_message(role, content)` (llm_service.py:60-84). */
  function Added(ms: seq<Entry>, role: string, content: Value): seq<Entry>
  {
    if !ValidRole(role) then ms
    else
      var a := ms + [Entry(role, content)];
      if |a| > MaxHistory + 1 then Keep(a, true) + LastN(Keep(a, false), MaxHistory) else a
  }

  lemma {:induction false} KeepConcat(a: seq<Entry>, b: seq<Entry>, system: bool)
    ensures Keep(a + b, system) == Keep(a, system) + Keep(b, system)
    decreases |b|
  {
    if |b| == 0 {
      assert a + b == a;
    } else {
      var init := b[..|b| - 1];
      assert (a + b)[..|a + b| - 1] == a + init;
      KeepConcat(a, init, system);
    }
  }

  /** A list whose entries are all on one side of the split is kept whole by that side. */
  lemma {:induction false} KeepUniform(xs: seq<Entry>, system: bool)
    requires forall i :: 0 <= i < |xs| ==> (xs[i].role == "system") == system
    ensures Keep(xs, system) == xs && Keep(xs, !system) == []
    decreases |xs|
  {
    if |xs| > 0 {
      KeepUniform(xs[..|xs| - 1], system);
    }
  }

  /** Every entry is either a system message or not. */
  lemma {:induction false} KeepPartitions(xs: seq<Entry>)
    ensures |xs| == |Keep(xs, true)| + |Keep(xs, false)|
    decreases |xs|
  {
    if |xs| > 0 {
      KeepPartitions(xs[..|xs| - 1]);
    }
  }

  /** An entry with another role is ignored (llm_service.py:67-69). */
  lemma AddInvalidRoleUnchanged(ms: seq<Entry>, role: string, content: Value)
    requires !ValidRole(role)
    ensures Added(ms, role, content) == ms
  {
  }

  /**
   * After `add_message` the system messages are exactly those before it plus
   * the new one if it is a system message, in their original order; the other
   * messages are the last 50 of the old ones and the new one — all of them when
   * the history stays within 51 entries.
   */
  lemma AddKeepsSystemMessages(ms: seq<Entry>, role: string, content: Value)
    requires ValidRole(role)
    ensures var a := ms + [Entry(role, content)];
      var r := Added(ms, role, content);
      && Keep(r, true) == Keep(a, true)
      && Keep(r, false) == (if |a| > MaxHistory + 1 then LastN(Keep(a, false), MaxHistory) else Keep(a, false))
  {
    var a := ms + [Entry(role, content)];
    if |a| > MaxHistory + 1 {
      var s, n := Keep(a, true), LastN(Keep(a, false), MaxHistory);
      var all := Keep(a, false);
      forall i | 0 <= i < |n| ensures (n[i].role == "system") == false {
        assert n[i] == all[|all| - |n| + i];
      }
      KeepUniform(s, true);
      KeepUniform(n, false);
      KeepConcat(s, n, true);
      KeepConcat(s, n, false);
    }
  }

  /**
   * The history never holds more than 51 non-system messages after an
   * append, and when it was truncated it holds at most the system messages
   * plus 50 (llm_service.py:74-83).
   */
  lemma AddBoundsHistory(ms: seq<Entry>, role: string, content: Value)
    requires ValidRole(role)
    ensures var a := ms + [Entry(role, content)];
      var r := Added(ms, role, content);
      && |Keep(r, false)| <= MaxHistory + 1
      && (|a| > MaxHistory + 1 ==> |r| <= |Keep(a, true)| + MaxHistory)
  {
    var a := ms + [Entry(role, content)];
    var r := Added(ms, role, content);
    AddKeepsSystemMessages(ms, role, content);
    KeepPartitions(r);
    KeepPartitions(a);
  }

  /** A user or assistant message just added is the last entry of the history. */
  lemma AddedTurnIsLast(ms: seq<Entry>, role: string, content: Value)
    requires role == "user" || role == "assistant"
    ensures var r := Added(ms, role, content);
      |r| > 0 && r[|r| - 1] == Entry(role, content)
  {
    var e := Entry(role, content);
    var a := ms + [e];
    assert a[..|a| - 1] == ms;
    assert Keep(a, false) == Keep(ms, false) + [e];
  }

  // ---------------------------------------------------------------------------
  // set_messages: keep well-formed entries, make sure a system message exists
  // ---------------------------------------------------------------------------

  /** The entry an element of the argument of `set_messages` contributes (llm_service.py:481-493). */
  function EntryOf(v: Value): (r: Option<Entry>)
    ensures r.Some? ==> ValidRole(r.value.role)
  {
    if v.JObj? && "role" in v.fields && "content" in v.fields
       && v.fields["role"].JStr? && ValidRole(v.fields["role"].s)
    then Some(Entry(v.fields["role"].s, v.fields["content"]))
    else None
  }

  /** `valid_messages` after the loop. */
  function Sanitised(vs: seq<Value>): (r: seq<Entry>)
    ensures |r| <= |vs|
    ensures forall i :: 0 <= i < |r| ==> ValidRole(r[i].role)
  {
    if |vs| == 0 then []
    else
      var e := EntryOf(vs[|vs| - 1]);
      Sanitised(vs[..|vs| - 1]) + (if e.Some? then [e.value] else [])
  }

  predicate HasSystem(es: seq<Entry>)
  {
    exists i :: 0 <= i < |es| && es[i].role == "system"
  }

  /** The history `set_messages` installs (llm_service.py:495-504). */
  function WithSystem(prompt: string, es: seq<Entry>): seq<Entry>
  {
    if HasSystem(es) then es else [Entry("system", JStr(prompt))] + es
  }

  /** What `get_messages` hands out for one entry. */
  function Dict(e: Entry): Value
  {
    JObj(map["role" := JStr(e.role), "content" := e.content])
  }

  function Dicts(es: seq<Entry>): (r: seq<Value>)
    ensures |r| == |es| && forall i :: 0 <= i < |es| ==> r[i] == Dict(es[i])
  {
    seq(|es|, i requires 0 <= i < |es| => Dict(es[i]))
  }

  /** Sanitising works element by element and keeps the order. */
  lemma {:induction false} SanitisedConcat(a: seq<Value>, b: seq<Value>)
    ensures Sanitised(a + b) == Sanitised(a) + Sanitised(b)
    decreases |b|
  {
    if |b| == 0 {
      assert a + b == a;
    } else {
      assert (a + b)[..|a + b| - 1] == a + b[..|b| - 1];
      SanitisedConcat(a, b[..|b| - 1]);
    }
  }

  /** One element contributes its role and content when both are present and the role is valid, and nothing otherwise. */
  lemma SanitisedOne(v: Value)
    ensures Sanitised([v]) == if EntryOf(v).Some? then [EntryOf(v).value] else []
    ensures EntryOf(v).Some? <==>
      v.JObj? && "role" in v.fields && "content" in v.fields
      && v.fields["role"].JStr? && ValidRole(v.fields["role"].s)
  {
    assert [v][..0] == [];
  }

  /** The installed history always has a system message and only valid roles. */
  lemma SetMessagesWellFormed(prompt: string, vs: seq<Value>)
    ensures var r := WithSystem(prompt, Sanitised(vs));
      HasSystem(r) && forall i :: 0 <= i < |r| ==> ValidRole(r[i].role)
  {
    var s := Sanitised(vs);
    if !HasSystem(s) {
      assert WithSystem(prompt, s)[0].role == "system";
    }
  }

  lemma {:induction false} SanitisedDicts(es: seq<Entry>)
    requires forall i :: 0 <= i < |es| ==> ValidRole(es[i].role)
    ensures Sanitised(Dicts(es)) == es
    decreases |es|
  {
    if |es| > 0 {
      var init := es[..|es| - 1];
      assert Dicts(es)[..|es| - 1] == Dicts(init);
      SanitisedDicts(init);
      assert EntryOf(Dict(es[|es| - 1])) == Some(es[|es| - 1]);
    }
  }

  /** Passing what `get_messages` returned back to `set_messages` restores the same history. */
  lemma SetMessagesRoundTrip(prompt: string, es: seq<Entry>)
    requires HasSystem(es) && forall i :: 0 <= i < |es| ==> ValidRole(es[i].role)
    ensures WithSystem(prompt, Sanitised(Dicts(es))) == es
  {
    SanitisedDicts(es);
  }

  /** With no well-formed entry the history is the system prompt alone. */
  lemma SetMessagesAllInvalid(prompt: string, vs: seq<Value>)
    requires forall i :: 0 <= i < |vs| ==> EntryOf(vs[i]).None?
    ensures WithSystem(prompt, Sanitised(vs)) == [Entry("system", JStr(prompt))]
  {
    SanitisedAllInvalid(vs);
  }

  lemma {:induction false} SanitisedAllInvalid(vs: seq<Value>)
    requires forall i :: 0 <= i < |vs| ==> EntryOf(vs[i]).None?
    ensures Sanitised(vs) == []
    decreases |vs|
  {
    if |vs| > 0 {
      SanitisedAllInvalid(vs[..|vs| - 1]);
    }
  }

  // ---------------------------------------------------------------------------
  // _make_api_request: up to three POSTs, the first HTTP 200 wins
  // ---------------------------------------------------------------------------

  /** The two kinds of request the service sends: the chat history, or the translation of an English text. */
  datatype Call = Chat(messages: seq<Entry>) | Translate(english: string)

  /**
   * The server: the decoded JSON object of attempt `k`'s response when its
   * status is 200; None for any other status or a request exception.
   */
  type Post = (Call, nat) -> Option<map<string, Value>>

  /** `result.get("message", {})`. */
  function MessageOf(body: map<string, Value>): Value
  {
    if "message" in body then body["message"] else JObj(map[])
  }

  /** The result of the attempts from `k` on. */
  function FirstOk(call: Call, post: Post, k: nat): Option<Value>
    decreases MaxRetries + 1 - k
  {
    if k > MaxRetries then None
    else match post(call, k)
      case Some(body) => Some(MessageOf(body))
      case None => FirstOk(call, post, k + 1)
  }

  /** `_make_api_request(messages)` (llm_service.py:249-304). */
  function ApiResult(call: Call, post: Post): Option<Value>
  {
    FirstOk(call, post, 0)
  }

  /** When all three attempts fail the result is None. */
  lemma AllAttemptsFail(call: Call, post: Post)
    requires forall k :: 0 <= k <= MaxRetries ==> post(call, k).None?
    ensures ApiResult(call, post) == None
  {
    assert FirstOk(call, post, 2) == None;
  }

  /** A first attempt with status 200 is the answer, whatever later attempts would do. */
  lemma FirstAttemptWins(call: Call, post: Post)
    requires post(call, 0).Some?
    ensures ApiResult(call, post) == Some(MessageOf(post(call, 0).value))
  {
  }

  // ---------------------------------------------------------------------------
  // _get_fallback_response and _handle_translation_failure
  // ---------------------------------------------------------------------------

  datatype Reply = Reply(english: string, chinese: string)

  /**
   * The `error_type` argument of `_get_fallback_response`: the four kinds of
   * its table (the keyword argument `english_content` with
   * `translation_error`) and any other name.
   */
  datatype Fault = EmptyResponse | ApiError | Exception | TranslationError(english: Option<string>) | Unknown(name: string)

  /** The name `get_response` passes for each kind. */
  function FaultNamed(name: string): (f: Fault)
    ensures f.Unknown? <==> name !in {"empty_response", "api_error", "exception", "translation_error"}
  {
    if name == "empty_response" then EmptyResponse
    else if name == "api_error" then ApiError
    else if name == "exception" then Exception
    else if name == "translation_error" then TranslationError(None)
    else Unknown(name)
  }

  /** `_get_fallback_response(kind, ...)` (llm_service.py:418-452). */
  function FallbackResponse(kind: Fault, model: string): Reply
  {
    match kind
    case EmptyResponse => Reply(EmptyEnglish, EmptyChinese)
    case ApiError => Reply(ApiEnglishHead + model + ApiEnglishTail, ApiChineseHead + model + ApiChineseTail)
    case TranslationError(english) => Reply(english.GetOr(TranslationEnglish), TranslationChinese)
    case _ => Reply(ExceptionEnglish, ExceptionChinese)
  }

  /** An unknown kind gets the `exception` entry (llm_service.py:447). */
  lemma FallbackUnknownIsException(name: string, model: string)
    ensures FallbackResponse(Unknown(name), model) == FallbackResponse(Exception, model)
  {
  }

  /** Every entry has a Chinese text. */
  lemma FallbackHasChinese(kind: Fault, model: string)
    ensures FallbackResponse(kind, model).chinese != ""
  {
    var c := FallbackResponse(kind, model).chinese;
    match kind
    case EmptyResponse => assert c[0] == '抱';
    case ApiError => assert c[0] == '抱';
    case TranslationError(_) => assert c[0] == '抱';
    case _ => assert c[0] == '抱';
  }

  lemma ContainsAt(a: string, m: string, b: string)
    ensures Contains(a + m + b, m)
  {
    var s := a + m + b;
    assert s[|a|..|a| + |m|] == m;
    assert OccursAt(s, m, |a|);
  }

  /** The connection error names the model in both languages. */
  lemma ApiErrorNamesModel(model: string)
    ensures var r := FallbackResponse(ApiError, model);
      Contains(r.english, model) && Contains(r.chinese, model)
  {
    ContainsAt(ApiEnglishHead, model, ApiEnglishTail);
    ContainsAt(ApiChineseHead, model, ApiChineseTail);
  }

  /** `_handle_translation_failure(english)` (llm_service.py:454-461). */
  function HandleTranslationFailure(english: string): (r: Reply)
    ensures r.english == english && r.chinese != ""
  {
    Reply(english, TranslationUnavailable)
  }

  // ---------------------------------------------------------------------------
  // _extract_chinese_translation: the CJK line filter
  // ---------------------------------------------------------------------------

  /** `'一' <= c <= '鿿'`. */
  predicate IsCjk(c: char)
  {
    '\U{4E00}' <= c <= '\U{9FFF}'
  }

  function CjkCount(s: string): (n: nat)
    ensures n <= |s|
  {
    if |s| == 0 then 0 else CjkCount(s[..|s| - 1]) + (if IsCjk(s[|s| - 1]) then 1 else 0)
  }

  /** A stripped line is Chinese when more than 30% of its characters are CJK ideographs. */
  predicate MostlyChinese(line: string)
  {
    10 * CjkCount(line) > 3 * |line|
  }

  /** The contribution of one line (llm_service.py:377-387): blank lines as "", Chinese lines stripped, others dropped. */
  function KeptLine(line: string): Option<string>
  {
    var l := Strip(line);
    if l == "" then Some("") else if MostlyChinese(l) then Some(l) else None
  }

  /** `chinese_lines` after the loop. */
  function ChineseLines(lines: seq<string>): (r: seq<string>)
    ensures |r| <= |lines|
  {
    if |lines| == 0 then []
    else
      var k := KeptLine(lines[|lines| - 1]);
      ChineseLines(lines[..|lines| - 1]) + (if k.Some? then [k.value] else [])
  }

  lemma ChineseLinesStep(lines: seq<string>, i: nat)
    requires i < |lines|
    ensures ChineseLines(lines[..i + 1])
         == ChineseLines(lines[..i]) + (if KeptLine(lines[i]).Some? then [KeptLine(lines[i]).value] else [])
  {
    assert lines[..i + 1][..i] == lines[..i];
  }

  predicate AllEmpty(ls: seq<string>)
  {
    forall i :: 0 <= i < |ls| ==> ls[i] == ""
  }

  /** The line filter of llm_service.py:373-393 applied to the cleaned text. */
  function FilterChinese(cleaned: string): string
  {
    var kept := ChineseLines(SplitBy(cleaned, "\n"));
    if AllEmpty(kept) then cleaned else Join("\n", kept)
  }

  lemma {:induction false} ChineseLinesConcat(a: seq<string>, b: seq<string>)
    ensures ChineseLines(a + b) == ChineseLines(a) + ChineseLines(b)
    decreases |b|
  {
    if |b| == 0 {
      assert a + b == a;
    } else {
      assert (a + b)[..|a + b| - 1] == a + b[..|b| - 1];
      ChineseLinesConcat(a, b[..|b| - 1]);
    }
  }

  /**
   * One line is kept as "" when it is blank, kept stripped when more than
   * 30% of the stripped line is CJK, and dropped otherwise; with
   * ChineseLinesConcat this fixes the filter on every list of lines.
   */
  lemma ChineseLinesOne(line: string)
    ensures AllSpace(line) ==> ChineseLines([line]) == [""]
    ensures !AllSpace(line) ==>
      ChineseLines([line]) == if MostlyChinese(Strip(line)) then [Strip(line)] else []
  {
    assert [line][..0] == [];
    StripEmptyIffBlank(line);
  }

  predicate NoCjk(s: string)
  {
    forall i :: 0 <= i < |s| ==> !IsCjk(s[i])
  }

  lemma {:induction false} CjkCountZero(s: string)
    requires NoCjk(s)
    ensures CjkCount(s) == 0
    decreases |s|
  {
    if |s| > 0 {
      CjkCountZero(s[..|s| - 1]);
    }
  }

  lemma {:induction false} SplitByNoCjk(s: string, sep: string)
    requires |sep| > 0 && NoCjk(s)
    ensures forall q :: q in SplitBy(s, sep) ==> NoCjk(q)
    decreases |s|
  {
    var i := Find(s, sep);
    if i >= 0 {
      SplitByNoCjk(s[i + |sep|..], sep);
    }
  }

  lemma {:induction false} NoCjkLinesKeepNothing(lines: seq<string>)
    requires forall i :: 0 <= i < |lines| ==> NoCjk(lines[i])
    ensures AllEmpty(ChineseLines(lines))
    decreases |lines|
  {
    if |lines| > 0 {
      var last := lines[|lines| - 1];
      NoCjkLinesKeepNothing(lines[..|lines| - 1]);
      StripNoCjk(last);
      CjkCountZero(Strip(last));
    }
  }

  lemma StripNoCjk(s: string)
    requires NoCjk(s)
    ensures NoCjk(Strip(s))
  {
    var l := LStrip(s);
    assert NoCjk(l) by {
      forall i | 0 <= i < |l| ensures !IsCjk(l[i]) {
        assert l[i] == s[|s| - |l| + i];
      }
    }
    var r := RStrip(l);
    forall i | 0 <= i < |r| ensures !IsCjk(r[i]) {
      assert r[i] == l[i];
    }
  }

  /** A text without CJK characters comes back unchanged: no line passes the 30% test. */
  lemma FilterKeepsNonChinese(cleaned: string)
    requires NoCjk(cleaned)
    ensures FilterChinese(cleaned) == cleaned
  {
    var lines := SplitBy(cleaned, "\n");
    SplitByNoCjk(cleaned, "\n");
    forall i | 0 <= i < |lines| ensures NoCjk(lines[i]) {
      assert lines[i] in lines;
    }
    NoCjkLinesKeepNothing(lines);
  }

  /** Every line the filter keeps is blank or more than 30% Chinese. */
  lemma {:induction false} ChineseLinesSound(lines: seq<string>)
    ensures forall l :: l in ChineseLines(lines) ==> l == "" || MostlyChinese(l)
    decreases |lines|
  {
    if |lines| > 0 {
      ChineseLinesSound(lines[..|lines| - 1]);
    }
  }

  // ---------------------------------------------------------------------------
  // get_response
  // ---------------------------------------------------------------------------

  /** The regex cleaners, which are not modelled. */
  datatype Cleaners = Cleaners(
    clean: string -> string,            // _clean_response (llm_service.py:395-416)
    sanitize: string -> string,         // _sanitize_for_tts (llm_service.py:86-110)
    scrub: (string, string) -> string)  // the patterns and English-sentence removal (llm_service.py:346-369)

  /** What `_get_english_content` returns: a text, a fallback dict, or an exception. */
  datatype English = Text(text: string) | Fallback(kind: Fault) | Failed

  /** `_get_english_content` after the request (llm_service.py:195-207). */
  function EnglishOf(response: Option<Value>, clean: string -> string): English
  {
    if response.None? || !Truthy(response.value) then Fallback(ApiError)
    else if !response.value.JObj? then Failed
    else
      var c := if "content" in response.value.fields then response.value.fields["content"] else JStr("");
      if !Truthy(c) then Fallback(EmptyResponse)
      else if c.JStr? then Text(clean(c.s))
      else Failed
  }

  /**
   * The Chinese text `get_response` ends up with (llm_service.py:229-247,
   * 152-153), or None when an exception escapes.
   */
  function ChineseOf(english: string, response: Option<Value>, scrub: (string, string) -> string): (r: Option<string>)
    ensures r.Some? ==> r.value != ""
  {
    if response.None? || !Truthy(response.value) then Some(HandleTranslationFailure(english).chinese)
    else if !response.value.JObj? then None
    else
      var raw := if "content" in response.value.fields then response.value.fields["content"] else JStr("");
      if !raw.JStr? then None
      else
        var c := FilterChinese(scrub(Strip(raw.s), english));
        Some(if c == "" then NoChinese else c)
  }

  /** A JSON text reply: its filtered lines, or the notice when none are Chinese. */
  lemma ChineseOfText(english: string, response: Option<Value>, scrub: (string, string) -> string, cleaned: string)
    requires response.Some? && Truthy(response.value) && response.value.JObj?
    requires var fs := response.value.fields;
      var raw := if "content" in fs then fs["content"] else JStr("");
      raw.JStr? && cleaned == scrub(Strip(raw.s), english)
    ensures ChineseOf(english, response, scrub)
         == Some(if FilterChinese(cleaned) == "" then NoChinese else FilterChinese(cleaned))
  {
  }

  /**
   * The reply for an English outcome, with the English fallbacks returned to
   * the caller as the check at llm_service.py:139-143 intends.
   */
  function ReplyFor(english: English, model: string, post: Post, cx: Cleaners): Reply
  {
    match english
    case Fallback(kind) => FallbackResponse(kind, model)
    case Failed => FallbackResponse(Exception, model)
    case Text(s) =>
      var e := cx.sanitize(s);
      match ChineseOf(e, ApiResult(Translate(e), post), cx.scrub)
      case Some(c) => Reply(e, c)
      case None => FallbackResponse(Exception, model)
  }

  /**
   * The reply as llm_service.py:126-165 computes it: a fallback dict from
   * `_get_english_content` reaches `_sanitize_for_tts`, whose `re.sub` raises
   * on a dict, so every English failure is reported as `exception`.
   */
  function ReplyAsWritten(english: English, model: string, post: Post, cx: Cleaners): Reply
  {
    match english
    case Fallback(_) => FallbackResponse(Exception, model)
    case _ => ReplyFor(english, model, post, cx)
  }

  /**
   * The request for the English answer: the history with the system prompt
   * appended to a leading system message's content (llm_service.py:189-191),
   * None when that content is not a string (`+=` raises).
   */
  function EnglishRequest(ms: seq<Entry>, prompt: string): (r: Option<seq<Entry>>)
    ensures r.Some? ==> |r.value| == |ms| && (|ms| > 0 ==> r.value[1..] == ms[1..])
  {
    if |ms| == 0 || ms[0].role != "system" then Some(ms)
    else if ms[0].content.JStr? then Some([Entry("system", JStr(ms[0].content.s + prompt))] + ms[1..])
    else None
  }

  /**
   * The history after `_get_english_content` as written: `.copy()` at
   * llm_service.py:189 is shallow, so the `+=` changes the stored first entry
   * too.
   */
  function HistoryAfterEnglishAsWritten(ms: seq<Entry>, prompt: string): seq<Entry>
  {
    match EnglishRequest(ms, prompt)
    case Some(r) => r
    case None => ms
  }

  /**
   * As written, the second request carries the system prompt twice on top of
   * the stored content, where the first carried it once: the requests drift
   * apart and the stored system message grows on every call.
   */
  lemma SystemPromptCompoundsAsWritten(ms: seq<Entry>, prompt: string)
    requires |ms| > 0 && ms[0].role == "system" && ms[0].content.JStr? && prompt != ""
    ensures var first := EnglishRequest(ms, prompt);
      var second := EnglishRequest(HistoryAfterEnglishAsWritten(ms, prompt), prompt);
      && first.Some? && second.Some?
      && second.value[0].content == JStr(ms[0].content.s + prompt + prompt)
      && first.value[0].content == JStr(ms[0].content.s + prompt)
      && second.value != first.value
  {
    var s := ms[0].content.s;
    var first := EnglishRequest(ms, prompt);
    var h := HistoryAfterEnglishAsWritten(ms, prompt);
    assert h[0].content == JStr(s + prompt);
    assert |s + prompt + prompt| != |s + prompt|;
    assert JStr(s + prompt + prompt) != JStr(s + prompt);
  }

  /** A chat turn: the reply (None when the input is blank) and the new history. */
  datatype Turn = Turn(reply: Option<Reply>, history: seq<Entry>)

  /**
   * `get_response(input)` (llm_service.py:112-165) with the stored history
   * left alone by the English request, and the English fallbacks returned.
   */
  function ResponseSpec(ms: seq<Entry>, prompt: string, model: string, input: string, post: Post, cx: Cleaners): Turn
  {
    if Strip(input) == "" then Turn(None, ms)
    else
      var h := Added(ms, "user", JStr(input));
      match EnglishRequest(h, prompt)
      case None => Turn(Some(FallbackResponse(Exception, model)), h)
      case Some(req) => Turn(Some(ReplyFor(EnglishOf(ApiResult(Chat(req), post), cx.clean), model, post, cx)), h)
  }

  /** Blank input gets no reply and leaves the history as it was (llm_service.py:114-115). */
  lemma BlankInputIgnored(ms: seq<Entry>, prompt: string, model: string, input: string, post: Post, cx: Cleaners)
    requires AllSpace(input)
    ensures ResponseSpec(ms, prompt, model, input, post, cx) == Turn(None, ms)
  {
    StripEmptyIffBlank(input);
  }

  /**
   * Any other input gets a reply, and the user message is recorded before any
   * request, as the last entry of the history (llm_service.py:118).
   */
  lemma InputRecordedFirst(ms: seq<Entry>, prompt: string, model: string, input: string, post: Post, cx: Cleaners)
    requires !AllSpace(input)
    ensures var t := ResponseSpec(ms, prompt, model, input, post, cx);
      && t.reply.Some?
      && t.history == Added(ms, "user", JStr(input))
      && |t.history| > 0 && t.history[|t.history| - 1] == Entry("user", JStr(input))
  {
    StripEmptyIffBlank(input);
    AddedTurnIsLast(ms, "user", JStr(input));
  }

  /** A turn never changes the system messages, so each request carries the prompt exactly once. */
  lemma TurnKeepsSystemMessages(ms: seq<Entry>, prompt: string, model: string, input: string, post: Post, cx: Cleaners)
    ensures Keep(ResponseSpec(ms, prompt, model, input, post, cx).history, true) == Keep(ms, true)
  {
    if Strip(input) != "" {
      AddKeepsSystemMessages(ms, "user", JStr(input));
      var e := Entry("user", JStr(input));
      KeepConcat(ms, [e], true);
      assert Keep([e], true) == [] by { assert [e][..0] == []; }
    }
  }

  /** Every reply has a non-empty Chinese text. */
  lemma ReplyHasChinese(ms: seq<Entry>, prompt: string, model: string, input: string, post: Post, cx: Cleaners)
    ensures var t := ResponseSpec(ms, prompt, model, input, post, cx);
      t.reply.Some? ==> t.reply.value.chinese != ""
  {
    if Strip(input) != "" {
      var h := Added(ms, "user", JStr(input));
      match EnglishRequest(h, prompt)
      case None =>
        FallbackHasChinese(Exception, model);
      case Some(req) =>
        ReplyForHasChinese(EnglishOf(ApiResult(Chat(req), post), cx.clean), model, post, cx);
    }
  }

  lemma ReplyForHasChinese(english: English, model: string, post: Post, cx: Cleaners)
    ensures ReplyFor(english, model, post, cx).chinese != ""
  {
    FallbackHasChinese(Exception, model);
    match english
    case Fallback(kind) => FallbackHasChinese(kind, model);
    case Failed =>
    case Text(s) =>
  }

  /** When the English request fails three times the caller is told the model could not be reached. */
  lemma ApiErrorReported(req: seq<Entry>, model: string, post: Post, cx: Cleaners)
    requires forall k :: 0 <= k <= MaxRetries ==> post(Chat(req), k).None?
    ensures ReplyFor(EnglishOf(ApiResult(Chat(req), post), cx.clean), model, post, cx)
      == FallbackResponse(ApiError, model)
  {
    AllAttemptsFail(Chat(req), post);
  }

  /** As written, the same failure is reported as a generic processing error instead. */
  lemma ApiErrorMaskedAsWritten(req: seq<Entry>, model: string, post: Post, cx: Cleaners)
    requires forall k :: 0 <= k <= MaxRetries ==> post(Chat(req), k).None?
    ensures var r := ReplyAsWritten(EnglishOf(ApiResult(Chat(req), post), cx.clean), model, post, cx);
      r == FallbackResponse(Exception, model) && r != FallbackResponse(ApiError, model)
  {
    AllAttemptsFail(Chat(req), post);
    var r := FallbackResponse(Exception, model);
    var a := FallbackResponse(ApiError, model);
    assert r.chinese != a.chinese by {
      assert r.chinese[3] == '处';
      assert a.chinese[3] == '连';
    }
  }

  /** When the translation request fails, the English text is kept with the notice that translation is unavailable. */
  lemma TranslationFailureKeepsEnglish(s: string, model: string, post: Post, cx: Cleaners)
    requires forall k :: 0 <= k <= MaxRetries ==> post(Translate(cx.sanitize(s)), k).None?
    ensures ReplyFor(Text(s), model, post, cx) == Reply(cx.sanitize(s), TranslationUnavailable)
  {
    AllAttemptsFail(Translate(cx.sanitize(s)), post);
  }

  /** `self.model` after construction (llm_service.py:21-44): the configured model, or the first available one. */
  function ChosenModel(model: string, available: seq<string>): (r: string)
    ensures |available| > 0 ==> r in available
    ensures |available| == 0 ==> r == if model == "" then DefaultModel else model
  {
    var m := if model == "" then DefaultModel else model;
    if |available| > 0 && m !in available then available[0] else m
  }

  class LLMService {
    /** `SYSTEM_PROMPT` of back-end/resources/prompts.py. */
    const prompt: string
    var model: string
    var messages: seq<Entry>

    /** `LLMService(model=...)` with `available` the models the server lists. */
    constructor(prompt: string, model: string, available: seq<string>)
      ensures this.prompt == prompt && this.model == ChosenModel(model, available)
      ensures messages == [Entry("system", JStr(prompt))]
    {
      this.prompt := prompt;
      this.model := ChosenModel(model, available);
      messages := [Entry("system", JStr(prompt))];
    }

    /** `add_message(role, content)` (llm_service.py:60-84). */
    method AddMessage(role: string, content: Value)
      modifies this
      ensures messages == Added(old(messages), role, content)
      ensures model == old(model)
    {
      if !ValidRole(role) {
        return;
      }
      messages := messages + [Entry(role, content)];
      if |messages| > MaxHistory + 1 {
        messages := Keep(messages, true) + LastN(Keep(messages, false), MaxHistory);
      }
    }

    /** `set_messages(vs)` (llm_service.py:473-505). */
    method SetMessages(vs: seq<Value>)
      modifies this
      ensures messages == WithSystem(prompt, Sanitised(vs))
      ensures model == old(model)
    {
      var valid: seq<Entry> := [];
      for i := 0 to |vs|
        invariant valid == Sanitised(vs[..i])
      {
        assert vs[..i + 1][..i] == vs[..i];
        var v := vs[i];
        if !v.JObj? || "role" !in v.fields || "content" !in v.fields {
          continue;
        }
        if !v.fields["role"].JStr? || !ValidRole(v.fields["role"].s) {
          continue;
        }
        valid := valid + [Entry(v.fields["role"].s, v.fields["content"])];
      }
      assert vs[..|vs|] == vs;
      if !HasSystem(valid) {
        valid := [Entry("system", JStr(prompt))] + valid;
      }
      messages := valid;
    }

    /** `get_messages()` (llm_service.py:507-513). */
    method GetMessages() returns (r: seq<Value>)
      ensures r == Dicts(messages)
    {
      r := Dicts(messages);
    }

    /**
     * `_make_api_request` (llm_service.py:249-304): `attempts` is the number
     * of POSTs made.
     */
    method MakeApiRequest(call: Call, post: Post) returns (r: Option<Value>, attempts: nat)
      ensures r == ApiResult(call, post)
      ensures 1 <= attempts <= MaxRetries + 1
      ensures forall k :: 0 <= k < attempts - 1 ==> post(call, k).None?
      ensures r.Some? ==> post(call, attempts - 1).Some? && r.value == MessageOf(post(call, attempts - 1).value)
      ensures r.None? ==> attempts == MaxRetries + 1 && post(call, MaxRetries).None?
    {
      var retry: nat := 0;
      while retry <= MaxRetries
        invariant retry <= MaxRetries + 1
        invariant forall k :: 0 <= k < retry ==> post(call, k).None?
        invariant ApiResult(call, post) == FirstOk(call, post, retry)
      {
        var response := post(call, retry);
        if response.Some? {
          return Some(MessageOf(response.value)), retry + 1;
        }
        retry := retry + 1;
      }
      return None, retry;
    }

    /** The line filter of `_extract_chinese_translation` (llm_service.py:373-393). */
    static method ExtractChineseLines(cleaned: string) returns (r: string)
      ensures r == FilterChinese(cleaned)
    {
      var lines := SplitBy(cleaned, "\n");
      var chinese: seq<string> := [];
      for i := 0 to |lines|
        invariant chinese == ChineseLines(lines[..i])
      {
        ChineseLinesStep(lines, i);
        var line := Strip(lines[i]);
        if line == "" {
          chinese := chinese + [""];
          continue;
        }
        if 10 * CjkCount(line) > 3 * |line| {
          chinese := chinese + [line];
        }
      }
      assert lines[..|lines|] == lines;
      if AllEmpty(chinese) {
        return cleaned;
      }
      return Join("\n", chinese);
    }

    /** `_get_chinese_translation(english)` (llm_service.py:209-247). */
    method GetChineseTranslation(english: string, post: Post, scrub: (string, string) -> string) returns (r: Option<string>)
      ensures r == ChineseOf(english, ApiResult(Translate(english), post), scrub)
    {
      var response, _ := MakeApiRequest(Translate(english), post);
      if response.None? || !Truthy(response.value) {
        return Some(HandleTranslationFailure(english).chinese);
      }
      if !response.value.JObj? {
        return None;
      }
      var raw := if "content" in response.value.fields then response.value.fields["content"] else JStr("");
      if !raw.JStr? {
        return None;
      }
      var cleaned := scrub(Strip(raw.s), english);
      var c := ExtractChineseLines(cleaned);
      ChineseOfText(english, response, scrub, cleaned);
      if c == "" {
        c := NoChinese;
      }
      return Some(c);
    }

    /** `get_response(input)` (llm_service.py:112-165). */
    method GetResponse(input: string, post: Post, cx: Cleaners) returns (r: Option<Reply>)
      modifies this
      ensures Turn(r, messages) == ResponseSpec(old(messages), prompt, model, input, post, cx)
      ensures model == old(model)
    {
      if Strip(input) == "" {
        return None;
      }
      AddMessage("user", JStr(input));
      var request := EnglishRequest(messages, prompt);
      if request.None? {
        return Some(FallbackResponse(Exception, model));
      }
      var response, _ := MakeApiRequest(Chat(request.value), post);
      var english := EnglishOf(response, cx.clean);
      var reply := ReplyOf(english, post, cx);
      r := Some(reply);
    }

    /** The reply `get_response` builds from the English outcome (llm_service.py:126-165). */
    method ReplyOf(english: English, post: Post, cx: Cleaners) returns (r: Reply)
      ensures r == ReplyFor(english, model, post, cx)
    {
      match english {
        case Fallback(kind) =>
          r := FallbackResponse(kind, model);
        case Failed =>
          r := FallbackResponse(Exception, model);
        case Text(s) =>
          var e := cx.sanitize(s);
          var chinese := GetChineseTranslation(e, post, cx.scrub);
          r := if chinese.Some? then Reply(e, chinese.value) else FallbackResponse(Exception, model);
      }
    }
  }
}
