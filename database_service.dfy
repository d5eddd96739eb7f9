/**
 * The conversation ledger (back-end/services/database_service.py): chat
 * messages, their audio segments and merged-audio records, held here as three
 * in-memory tables in insertion order. A query's `first()` is the earliest
 * matching row; SQL `LIKE` is matched without case for ASCII letters, as
 * SQLite does.
 */
module Database {
  import opened Wrappers
  import opened Json
  import opened Strs
  import opened MessageModel

  /** A row of `audio_segments`; `owner` is the `message_id` column, which is text. */
  datatype SegmentRow = SegmentRow(
    owner: string, segmentIndex: Value, path: Value, text: Value, sampleRate: Value, duration: Value)

  /** A row of `merged_audios`. */
  datatype MergedRow = MergedRow(
    messageId: Value, path: Value, sampleRate: Value, duration: Value, segmentsCount: Value)

  datatype Tables = Tables(messages: seq<Message>, segments: seq<SegmentRow>, merged: seq<MergedRow>)

  /** `json.dumps`. */
  type Dumper = Value -> string

  /**
   * The table constraints: every message has a positive id and the ids are
   * distinct (the integer primary key), non-null keys are distinct
   * (back-end/models/database_models.py:15), segments have a non-null path
   * (back-end/models/audio.py:10), and merged records have a non-null path and
   * a non-null, distinct `message_id` (back-end/models/audio.py:19-20).
   */
  predicate ValidTables(t: Tables)
  {
    && (forall i :: 0 <= i < |t.segments| ==> t.segments[i].path != JNull)
    && (forall i :: 0 <= i < |t.messages| ==> t.messages[i].id.Some? && t.messages[i].id.value >= 1)
    && (forall i, j :: 0 <= i < j < |t.messages| ==> t.messages[i].id != t.messages[j].id)
    && (forall i, j :: 0 <= i < j < |t.messages| && t.messages[i].key.Some? ==> t.messages[i].key != t.messages[j].key)
    && (forall i :: 0 <= i < |t.merged| ==> t.merged[i].messageId != JNull && t.merged[i].path != JNull)
    && (forall i, j :: 0 <= i < j < |t.merged| ==> t.merged[i].messageId != t.merged[j].messageId)
  }

  // ---------------------------------------------------------------------------
  // Queries
  // ---------------------------------------------------------------------------

  /** The index of the first row satisfying `f`, if any. */
  function FirstWhere(ms: seq<Message>, f: Message -> bool): (r: Option<nat>)
    ensures r.Some? ==> r.value < |ms| && f(ms[r.value]) && forall j :: 0 <= j < r.value ==> !f(ms[j])
    ensures r.None? ==> forall j :: 0 <= j < |ms| ==> !f(ms[j])
    decreases |ms|
  {
    if |ms| == 0 then None
    else if f(ms[0]) then Some(0)
    else
      match FirstWhere(ms[1..], f)
      case None => None
      case Some(i) => Some(i + 1)
  }

  /** SQL `col LIKE '{pat}%'`, wildcards in `pat` aside. */
  predicate LikePrefix(col: Option<string>, pat: string)
  {
    col.Some? && StartsWith(Lower(col.value), Lower(pat))
  }

  /** SQL `col LIKE '%{pat}%'`, wildcards in `pat` aside. */
  predicate LikeContains(col: Option<string>, pat: string)
  {
    col.Some? && Contains(Lower(col.value), Lower(pat))
  }

  /** The earliest of the rows found by one query, as a row. */
  function RowAt(ms: seq<Message>, i: Option<nat>): Option<Message>
    requires i.Some? ==> i.value < |ms|
  {
    if i.Some? then Some(ms[i.value]) else None
  }

  /** The row `get_message_by_id` returns (database_service.py:157-171). */
  function ById(ms: seq<Message>, id: string): (r: Option<Message>)
    ensures r.Some? ==> r.value in ms
  {
    var exact := FirstWhere(ms, (m: Message) => m.messageId == Some(id));
    if exact.Some? then RowAt(ms, exact)
    else RowAt(ms, FirstWhere(ms, (m: Message) => LikePrefix(m.key, "assistant-" + id)))
  }

  /** `message_id.split("-")[0]`. */
  function FirstPart(id: string): string
  {
    SplitBy(id, "-")[0]
  }

  /** The row `get_message_by_flexible_id` returns (database_service.py:257-290). */
  function ByFlexibleId(ms: seq<Message>, id: string): (r: Option<Message>)
    ensures r.Some? ==> r.value in ms
  {
    var exact := FirstWhere(ms, (m: Message) => m.messageId == Some(id));
    if exact.Some? then RowAt(ms, exact)
    else
      var keyed := FirstWhere(ms, (m: Message) => m.key == Some("assistant-" + id));
      if keyed.Some? then RowAt(ms, keyed)
      else
        var near := FirstWhere(ms, (m: Message) => LikeContains(m.key, id));
        if near.Some? then RowAt(ms, near)
        else if Contains(id, "-") then
          var p := FirstPart(id);
          RowAt(ms, FirstWhere(ms, (m: Message) => LikePrefix(m.messageId, p) || LikeContains(m.key, p)))
        else None
  }

  /** A row either query of `get_message_by_id` can return. */
  predicate IdHit(m: Message, id: string)
  {
    m.messageId == Some(id) || LikePrefix(m.key, "assistant-" + id)
  }

  /** `get_message_by_id` finds the first row with that exact `message_id` whenever there is one. */
  lemma ByIdPrefersExact(ms: seq<Message>, id: string, i: nat)
    requires i < |ms| && ms[i].messageId == Some(id)
    ensures ById(ms, id).Some? && ById(ms, id).value.messageId == Some(id)
    ensures exists k :: 0 <= k <= i && ById(ms, id) == Some(ms[k])
  {
  }

  /**
   * `get_message_by_id` returns None exactly when no row has the exact
   * `message_id` and no key starts with `assistant-{id}`.
   */
  lemma ByIdNoneIff(ms: seq<Message>, id: string)
    ensures ById(ms, id).None? <==>
      forall j :: 0 <= j < |ms| ==> ms[j].messageId != Some(id) && !LikePrefix(ms[j].key, "assistant-" + id)
  {
  }

  lemma {:induction false} LowerStartsWith(s: string, pre: string)
    requires StartsWith(s, pre)
    ensures StartsWith(Lower(s), Lower(pre))
  {
    assert s == pre + s[|pre|..];
    LowerConcat(pre, s[|pre|..]);
  }

  /** A key that starts with `assistant-{id}` contains `id`, in SQL's caseless sense. */
  lemma PrefixedKeyContainsId(key: string, id: string)
    requires StartsWith(Lower(key), Lower("assistant-" + id))
    ensures Contains(Lower(key), Lower(id))
  {
    LowerConcat("assistant-", id);
    var l := Lower(key);
    var n := |Lower("assistant-")|;
    assert l[n..n + |Lower(id)|] == Lower(id);
    assert OccursAt(l, Lower(id), n);
  }

  /** The tolerant lookup finds a row whenever the strict one does. */
  lemma FlexibleFindsWhatByIdFinds(ms: seq<Message>, id: string)
    ensures ById(ms, id).Some? ==> ByFlexibleId(ms, id).Some?
  {
    var exact := FirstWhere(ms, (m: Message) => m.messageId == Some(id));
    if exact.None? && ById(ms, id).Some? {
      var i := FirstWhere(ms, (m: Message) => LikePrefix(m.key, "assistant-" + id)).value;
      PrefixedKeyContainsId(ms[i].key.value, id);
      assert ((m: Message) => LikeContains(m.key, id))(ms[i]);
    }
  }

  /** With no row carrying the exact id or key, the tolerant lookup falls through to the key search. */
  lemma FlexibleThirdTier(ms: seq<Message>, id: string, i: nat)
    requires i < |ms| && LikeContains(ms[i].key, id)
    requires forall j :: 0 <= j < |ms| ==> ms[j].messageId != Some(id) && ms[j].key != Some("assistant-" + id)
    ensures exists k :: 0 <= k <= i && ByFlexibleId(ms, id) == Some(ms[k]) && LikeContains(ms[k].key, id)
  {
    var near := FirstWhere(ms, (m: Message) => LikeContains(m.key, id));
    assert ((m: Message) => LikeContains(m.key, id))(ms[i]);
    assert near.Some? && near.value <= i;
  }

  /** Tier 1 of `get_message_by_flexible_id`: the exact `message_id`. */
  predicate ExactId(m: Message, id: string)
  {
    m.messageId == Some(id)
  }

  /** Tier 2: the exact key `assistant-{id}`. */
  predicate ExactKey(m: Message, id: string)
  {
    m.key == Some("assistant-" + id)
  }

  /** Tier 4, tried only for an id with a hyphen: its first part starts the `message_id` or occurs in the key. */
  predicate PartHit(m: Message, id: string)
  {
    Contains(id, "-") && (LikePrefix(m.messageId, FirstPart(id)) || LikeContains(m.key, FirstPart(id)))
  }

  /** A row some tier of `get_message_by_flexible_id` accepts. */
  predicate FlexHit(m: Message, id: string)
  {
    ExactId(m, id) || ExactKey(m, id) || LikeContains(m.key, id) || PartHit(m, id)
  }

  /** The first row with the exact `message_id` is returned. */
  lemma FlexibleFirstTier(ms: seq<Message>, id: string, i: nat)
    requires i < |ms| && ExactId(ms[i], id)
    requires forall j :: 0 <= j < i ==> !ExactId(ms[j], id)
    ensures ByFlexibleId(ms, id) == Some(ms[i])
  {
    var exact := FirstWhere(ms, (m: Message) => m.messageId == Some(id));
    assert ((m: Message) => m.messageId == Some(id))(ms[i]);
    assert exact.Some? && exact.value <= i;
    assert ExactId(ms[exact.value], id);
  }

  /** With no exact `message_id`, the first row with the key `assistant-{id}` is returned. */
  lemma FlexibleSecondTier(ms: seq<Message>, id: string, i: nat)
    requires forall j :: 0 <= j < |ms| ==> !ExactId(ms[j], id)
    requires i < |ms| && ExactKey(ms[i], id)
    requires forall j :: 0 <= j < i ==> !ExactKey(ms[j], id)
    ensures ByFlexibleId(ms, id) == Some(ms[i])
  {
    var exact := FirstWhere(ms, (m: Message) => m.messageId == Some(id));
    var keyed := FirstWhere(ms, (m: Message) => m.key == Some("assistant-" + id));
    assert ((m: Message) => m.key == Some("assistant-" + id))(ms[i]);
    assert keyed.Some? && keyed.value <= i;
    assert ExactKey(ms[keyed.value], id);
  }

  /**
   * With a hyphen and no hit in the first three tiers, the first row whose
   * `message_id` starts with the id's first part, or whose key contains it,
   * is returned.
   */
  lemma FlexibleFourthTier(ms: seq<Message>, id: string, i: nat)
    requires Contains(id, "-")
    requires forall j :: 0 <= j < |ms| ==> !ExactId(ms[j], id) && !ExactKey(ms[j], id) && !LikeContains(ms[j].key, id)
    requires i < |ms| && PartHit(ms[i], id)
    requires forall j :: 0 <= j < i ==> !PartHit(ms[j], id)
    ensures ByFlexibleId(ms, id) == Some(ms[i])
  {
    FlexibleFallsThrough(ms, id);
    var p := FirstPart(id);
    var part := FirstWhere(ms, (m: Message) => LikePrefix(m.messageId, p) || LikeContains(m.key, p));
    assert ((m: Message) => LikePrefix(m.messageId, p) || LikeContains(m.key, p))(ms[i]);
    assert part.Some? && part.value <= i;
    assert PartHit(ms[part.value], id);
  }

  /** With no hit in the first three tiers, the lookup is decided by the fourth. */
  lemma FlexibleFallsThrough(ms: seq<Message>, id: string)
    requires forall j :: 0 <= j < |ms| ==> !ExactId(ms[j], id) && !ExactKey(ms[j], id) && !LikeContains(ms[j].key, id)
    ensures ByFlexibleId(ms, id) ==
      if Contains(id, "-") then
        var p := FirstPart(id);
        RowAt(ms, FirstWhere(ms, (m: Message) => LikePrefix(m.messageId, p) || LikeContains(m.key, p)))
      else None
  {
    var exact := FirstWhere(ms, (m: Message) => m.messageId == Some(id));
    var keyed := FirstWhere(ms, (m: Message) => m.key == Some("assistant-" + id));
    var near := FirstWhere(ms, (m: Message) => LikeContains(m.key, id));
  }

  /** `get_message_by_flexible_id` returns None exactly when no row meets any tier that is tried. */
  lemma FlexibleNoneIff(ms: seq<Message>, id: string)
    ensures ByFlexibleId(ms, id).None? <==> forall j :: 0 <= j < |ms| ==> !FlexHit(ms[j], id)
  {
    if forall j :: 0 <= j < |ms| ==> !FlexHit(ms[j], id) {
      FlexibleFallsThrough(ms, id);
      if Contains(id, "-") {
        var p := FirstPart(id);
        var part := FirstWhere(ms, (m: Message) => LikePrefix(m.messageId, p) || LikeContains(m.key, p));
      }
    } else {
      var i :| 0 <= i < |ms| && FlexHit(ms[i], id);
      if exists j :: 0 <= j < |ms| && (ExactId(ms[j], id) || ExactKey(ms[j], id) || LikeContains(ms[j].key, id)) {
        var exact := FirstWhere(ms, (m: Message) => m.messageId == Some(id));
        var keyed := FirstWhere(ms, (m: Message) => m.key == Some("assistant-" + id));
        var near := FirstWhere(ms, (m: Message) => LikeContains(m.key, id));
        var j :| 0 <= j < |ms| && (ExactId(ms[j], id) || ExactKey(ms[j], id) || LikeContains(ms[j].key, id));
        assert exact.Some? || keyed.Some? || near.Some? by {
          if ExactId(ms[j], id) {
            assert ((m: Message) => m.messageId == Some(id))(ms[j]);
          } else if ExactKey(ms[j], id) {
            assert ((m: Message) => m.key == Some("assistant-" + id))(ms[j]);
          } else {
            assert ((m: Message) => LikeContains(m.key, id))(ms[j]);
          }
        }
      } else {
        FlexibleFallsThrough(ms, id);
        var p := FirstPart(id);
        assert PartHit(ms[i], id);
        assert ((m: Message) => LikePrefix(m.messageId, p) || LikeContains(m.key, p))(ms[i]);
      }
    }
  }

  /** An id without a hyphen that matches no tier is not found. */
  lemma FlexibleMissWithoutHyphen(ms: seq<Message>, id: string)
    requires !Contains(id, "-")
    requires forall j :: 0 <= j < |ms| ==>
      ms[j].messageId != Some(id) && ms[j].key != Some("assistant-" + id) && !LikeContains(ms[j].key, id)
    ensures ByFlexibleId(ms, id).None?
  {
  }

  // ---------------------------------------------------------------------------
  // Saving messages
  // ---------------------------------------------------------------------------

  /** `f"{role}-{message_id}"`. */
  function KeyOf(role: string, messageId: string): (key: string)
    ensures |key| == |role| + 1 + |messageId|
    ensures key[..|role|] == role && key[|role|] == '-' && key[|role| + 1..] == messageId
  {
    role + "-" + messageId
  }

  /** The stored content text: strings as they are, anything else JSON-encoded. */
  function Encode(content: Value, dumps: Dumper): string
  {
    if content.JStr? then content.s else dumps(content)
  }

  /** The largest message id in use, or 0. */
  function MaxId(ms: seq<Message>): (r: int)
    ensures r >= 0
    ensures forall i :: 0 <= i < |ms| && ms[i].id.Some? ==> ms[i].id.value <= r
  {
    if |ms| == 0 then 0
    else
      var rest := MaxId(ms[1..]);
      if ms[0].id.Some? && ms[0].id.value > rest then ms[0].id.value else rest
  }

  /** The id SQLite gives the next inserted row: one more than the largest in use. */
  function NextId(ms: seq<Message>): (r: int)
    ensures r >= 1
    ensures forall i :: 0 <= i < |ms| && ms[i].id.Some? ==> ms[i].id.value < r
  {
    MaxId(ms) + 1
  }

  /** The new row `save_message` and `save_message_with_audio` build; `now` is the clock's ISO time. */
  function NewMessage(id: int, role: string, messageId: string, content: Value, now: string, dumps: Dumper): Message
  {
    Message(Some(id), Some(KeyOf(role, messageId)), Some(messageId), role, Some(Encode(content, dumps)),
            None, None, None, None, Some(now))
  }

  function KeyIndex(ms: seq<Message>, key: string): (r: Option<nat>)
    ensures r.Some? ==> r.value < |ms| && ms[r.value].key == Some(key)
    ensures r.None? ==> forall j :: 0 <= j < |ms| ==> ms[j].key != Some(key)
  {
    FirstWhere(ms, (m: Message) => m.key == Some(key))
  }

  /** A row appended under another key leaves a key free. */
  lemma AppendedKeyFree(ms: seq<Message>, m: Message, key: string)
    requires KeyIndex(ms, key).None? && m.key != Some(key)
    ensures KeyIndex(ms + [m], key).None?
  {
    forall j | 0 <= j < |ms + [m]| ensures (ms + [m])[j].key != Some(key) {
      if j < |ms| {
        assert (ms + [m])[j] == ms[j];
      }
    }
  }

  /**
   * `save_message` (database_service.py:34-60) with `uuid` the fresh id
   * drawn for it: the new row is appended and the id returned; a key that
   * is already taken makes the insert fail, leaving the tables as they were
   * and returning None.
   */
  function SavedMessage(t: Tables, role: string, content: Value, uuid: string, now: string, dumps: Dumper)
    : (Tables, Option<string>)
  {
    if KeyIndex(t.messages, KeyOf(role, uuid)).Some? then (t, None)
    else
      var m := NewMessage(NextId(t.messages), role, uuid, content, now, dumps);
      (t.(messages := t.messages + [m]), Some(uuid))
  }

  lemma AppendKeepsValid(t: Tables, m: Message)
    requires ValidTables(t)
    requires m.id == Some(NextId(t.messages))
    requires m.key.Some? ==> KeyIndex(t.messages, m.key.value).None?
    ensures ValidTables(t.(messages := t.messages + [m]))
  {
  }

  /**
   * A successful save appends exactly one row, under `{role}-{id}`, holding
   * the role, the id, the encoded content and a new row id; the other tables
   * are untouched and the constraints still hold.
   */
  lemma SaveMessageAppends(t: Tables, role: string, content: Value, uuid: string, now: string, dumps: Dumper)
    requires ValidTables(t)
    ensures var (t', r) := SavedMessage(t, role, content, uuid, now, dumps);
      && ValidTables(t')
      && t'.segments == t.segments && t'.merged == t.merged
      && (r.None? <==> exists j :: 0 <= j < |t.messages| && t.messages[j].key == Some(KeyOf(role, uuid)))
      && (r.None? ==> t' == t)
      && (r.Some? ==> r.value == uuid && |t'.messages| == |t.messages| + 1
                      && t'.messages[..|t.messages|] == t.messages
                      && var m := t'.messages[|t.messages|];
                         m.key == Some(KeyOf(role, uuid)) && m.role == role && m.messageId == Some(uuid)
                         && m.content == Some(Encode(content, dumps))
                         && forall j :: 0 <= j < |t.messages| ==> t.messages[j].id != m.id)
  {
    var (t', r) := SavedMessage(t, role, content, uuid, now, dumps);
    if r.Some? {
      AppendKeepsValid(t, t'.messages[|t.messages|]);
    }
  }

  /**
   * A saved message is found again by its id when no older row carries the
   * same id, and its dictionary gives the content back: strings that are not
   * JSON as `{"text": ...}`, other values decoded (when decoding inverts
   * encoding).
   */
  lemma SavedMessageFoundById(t: Tables, role: string, content: Value, uuid: string, now: string,
                              dumps: Dumper, parse: Parser)
    requires forall j :: 0 <= j < |t.messages| ==> t.messages[j].messageId != Some(uuid)
    requires SavedMessage(t, role, content, uuid, now, dumps).1.Some?
    requires content.JStr? ==> content.s != "" && parse(content.s).None?
    requires !content.JStr? ==> dumps(content) != "" && parse(dumps(content)) == Some(content)
    ensures var t' := SavedMessage(t, role, content, uuid, now, dumps).0;
      && ById(t'.messages, uuid).Some?
      && var d := ToDict(ById(t'.messages, uuid).value, parse);
         d["role"] == JStr(role) && d["message_id"] == JStr(uuid)
         && "content" in d && d["content"] == (if content.JStr? then JObj(map["text" := content]) else content)
  {
    var t' := SavedMessage(t, role, content, uuid, now, dumps).0;
    var n := |t.messages|;
    assert t'.messages[n].messageId == Some(uuid);
    var exact := FirstWhere(t'.messages, (m: Message) => m.messageId == Some(uuid));
    assert exact == Some(n) by {
      forall j | 0 <= j < n
        ensures t'.messages[j].messageId != Some(uuid)
      {
        assert t'.messages[j] == t.messages[j];
      }
    }
  }

  /** `segment.get(k, default)`. */
  function Field(d: map<string, Value>, k: string, default: Value): Value
  {
    if k in d then d[k] else default
  }

  /**
   * The value a column of back-end/models/audio.py keeps when the ORM is
   * handed `v`: a `None` is left out of the INSERT, so the column default
   * applies (`segment_index` 0, `sample_rate` 16000, audio.py:11-12).
   */
  function ColumnValue(v: Value, default: Value): (r: Value)
    ensures r != JNull ==> r == v || r == default
    ensures v != JNull ==> r == v
  {
    if v == JNull then default else v
  }

  /**
   * The segment row built from one dict: with the defaults of
   * `save_message_with_audio` (database_service.py:89-95) when `fromChat`,
   * else with those of `save_audio_segments` (database_service.py:369-375);
   * a `None` index or rate takes the column default.
   */
  function SegmentFor(owner: string, d: map<string, Value>, fromChat: bool): SegmentRow
  {
    var index := ColumnValue(Field(d, "segment_index", JNum(0)), JNum(0));
    if fromChat then
      SegmentRow(owner, index, Field(d, "path", JStr("")),
                 Field(d, "text", JStr("")), ColumnValue(Field(d, "sample_rate", JNum(24000)), JNum(16000)), JNull)
    else
      SegmentRow(owner, index, Field(d, "path", JNull),
                 JNull, ColumnValue(Field(d, "sample_rate", JNull), JNum(16000)), Field(d, "duration", JNull))
  }

  /**
   * The dict gives the segment a path: `save_audio_segments` reads
   * `segment.get("path")`, `save_message_with_audio` `segment.get("path", "")`,
   * and either fails the NOT NULL `path` column on `None`.
   */
  predicate GivesPath(v: Value, fromChat: bool)
  {
    v.JObj? && (if fromChat then "path" !in v.fields || v.fields["path"] != JNull
                else "path" in v.fields && v.fields["path"] != JNull)
  }

  /** Every row has a path, as the `path` column demands at commit. */
  predicate PathsSet(rows: seq<SegmentRow>)
  {
    forall i :: 0 <= i < |rows| ==> rows[i].path != JNull
  }

  /** The rows for a list of segment dicts; None when one is not a dict (`.get` raises). */
  function BuildSegments(owner: string, vs: seq<Value>, fromChat: bool): (r: Option<seq<SegmentRow>>)
    ensures r.Some? <==> forall i :: 0 <= i < |vs| ==> vs[i].JObj?
    ensures r.Some? ==> (|r.value| == |vs|
      && forall i :: 0 <= i < |vs| ==> r.value[i] == SegmentFor(owner, vs[i].fields, fromChat))
    decreases |vs|
  {
    if |vs| == 0 then Some([])
    else
      var last := vs[|vs| - 1];
      match BuildSegments(owner, vs[..|vs| - 1], fromChat)
      case None => None
      case Some(p) => if last.JObj? then Some(p + [SegmentFor(owner, last.fields, fromChat)]) else None
  }

  /** The built rows all have a path exactly when every dict gives one. */
  lemma BuiltPathsSet(owner: string, vs: seq<Value>, fromChat: bool)
    requires BuildSegments(owner, vs, fromChat).Some?
    ensures PathsSet(BuildSegments(owner, vs, fromChat).value) <==> forall i :: 0 <= i < |vs| ==> GivesPath(vs[i], fromChat)
  {
    var rows := BuildSegments(owner, vs, fromChat).value;
    forall i | 0 <= i < |vs|
      ensures rows[i].path != JNull <==> GivesPath(vs[i], fromChat)
    {
      assert rows[i] == SegmentFor(owner, vs[i].fields, fromChat);
    }
  }

  /** The segments left after deleting those of `owner`, in order. */
  function NotOwnedBy(segs: seq<SegmentRow>, owner: string): (r: seq<SegmentRow>)
    ensures forall s :: s in r ==> s in segs && s.owner != owner
    ensures forall s :: s in segs && s.owner != owner ==> s in r
  {
    if |segs| == 0 then []
    else (if segs[0].owner == owner then [] else [segs[0]]) + NotOwnedBy(segs[1..], owner)
  }

  /** The segments of `owner`, in order. */
  function OwnedBy(segs: seq<SegmentRow>, owner: string): (r: seq<SegmentRow>)
    ensures forall s :: s in r ==> s in segs && s.owner == owner
  {
    if |segs| == 0 then []
    else (if segs[0].owner == owner then [segs[0]] else []) + OwnedBy(segs[1..], owner)
  }

  lemma {:induction false} OwnedByConcat(a: seq<SegmentRow>, b: seq<SegmentRow>, owner: string)
    ensures OwnedBy(a + b, owner) == OwnedBy(a, owner) + OwnedBy(b, owner)
    decreases |a|
  {
    if |a| == 0 {
      assert a + b == b;
    } else {
      assert (a + b)[1..] == a[1..] + b;
      OwnedByConcat(a[1..], b, owner);
    }
  }

  lemma {:induction false} OwnedByAll(segs: seq<SegmentRow>, owner: string)
    requires forall i :: 0 <= i < |segs| ==> segs[i].owner == owner
    ensures OwnedBy(segs, owner) == segs && NotOwnedBy(segs, owner) == []
    decreases |segs|
  {
    if |segs| > 0 {
      OwnedByAll(segs[1..], owner);
    }
  }

  lemma {:induction false} OwnedByNone(segs: seq<SegmentRow>, owner: string)
    requires forall s :: s in segs ==> s.owner != owner
    ensures OwnedBy(segs, owner) == [] && NotOwnedBy(segs, owner) == segs
    decreases |segs|
  {
    if |segs| > 0 {
      OwnedByNone(segs[1..], owner);
    }
  }

  /** Replacing an owner's segments: delete them all, then insert the new ones. */
  function Replace(segs: seq<SegmentRow>, owner: string, added: seq<SegmentRow>): seq<SegmentRow>
  {
    NotOwnedBy(segs, owner) + added
  }

  /** A replacement by rows with paths keeps every stored segment's path set. */
  lemma ReplaceKeepsPaths(segs: seq<SegmentRow>, owner: string, added: seq<SegmentRow>)
    requires PathsSet(segs) && PathsSet(added)
    ensures PathsSet(Replace(segs, owner, added))
  {
    var kept := NotOwnedBy(segs, owner);
    var r := Replace(segs, owner, added);
    forall i | 0 <= i < |r|
      ensures r[i].path != JNull
    {
      if i < |kept| {
        assert r[i] == kept[i] && kept[i] in segs;
      } else {
        assert r[i] == added[i - |kept|];
      }
    }
  }

  /** After a replacement the owner has exactly the new segments, and every other owner's are unchanged. */
  lemma ReplaceSegments(segs: seq<SegmentRow>, owner: string, added: seq<SegmentRow>, other: string)
    requires forall i :: 0 <= i < |added| ==> added[i].owner == owner
    requires other != owner
    ensures OwnedBy(Replace(segs, owner, added), owner) == added
    ensures OwnedBy(Replace(segs, owner, added), other) == OwnedBy(segs, other)
  {
    var kept := NotOwnedBy(segs, owner);
    OwnedByConcat(kept, added, owner);
    OwnedByConcat(kept, added, other);
    OwnedByAll(added, owner);
    OwnedByNone(kept, owner);
    OwnedByNone(added, other);
    KeptOwnedBy(segs, owner, other);
  }

  lemma {:induction false} KeptOwnedBy(segs: seq<SegmentRow>, owner: string, other: string)
    requires other != owner
    ensures OwnedBy(NotOwnedBy(segs, owner), other) == OwnedBy(segs, other)
    decreases |segs|
  {
    if |segs| > 0 {
      KeptOwnedBy(segs[1..], owner, other);
      var head := if segs[0].owner == owner then [] else [segs[0]];
      OwnedByConcat(head, NotOwnedBy(segs[1..], owner), other);
    }
  }

  /** `message.id` as the text the segment's `message_id` column holds. */
  function Owner(m: Message): string
    requires m.id.Some? && m.id.value >= 0
  {
    Decimal(m.id.value)
  }

  /** Python's `bool(audio_paths)` on an optional list. */
  predicate HasPaths(paths: Option<seq<Value>>)
  {
    paths.Some? && |paths.value| > 0
  }

  /**
   * `save_message_with_audio` (database_service.py:62-106): the message under
   * `{role}-{message_id}` is reused, or created; when `audio_paths` is
   * non-empty its segments are replaced by the listed ones. A list entry that
   * is not a dict, or whose path is `None`, rolls everything back and gives
   * False. Each segment also stores its `text`, a column of
   * back-end/models/database_models.py:49.
   */
  function SaveWithAudio(t: Tables, role: string, content: Value, messageId: string,
                         paths: Option<seq<Value>>, now: string, dumps: Dumper): (Tables, bool)
    requires ValidTables(t)
  {
    var (row, ms) := FoundOrNew(t.messages, role, content, messageId, now, dumps);
    if !HasPaths(paths) then (t.(messages := ms), true)
    else
      match BuildSegments(Owner(row), paths.value, true)
      case None => (t, false)
      case Some(added) =>
        if !PathsSet(added) then (t, false)
        else (t.(messages := ms, segments := Replace(t.segments, Owner(row), added)), true)
  }

  /** The row under `{role}-{message_id}` and the unchanged table, or a new row and the table with it appended. */
  function FoundOrNew(ms: seq<Message>, role: string, content: Value, messageId: string,
                      now: string, dumps: Dumper): (Message, seq<Message>)
  {
    var found := KeyIndex(ms, KeyOf(role, messageId));
    if found.Some? then (ms[found.value], ms)
    else
      var row := NewMessage(NextId(ms), role, messageId, content, now, dumps);
      (row, ms + [row])
  }

  /** The message `save_message_with_audio` works on, after the call. */
  function KeyedRow(ms: seq<Message>, role: string, messageId: string): Option<Message>
  {
    RowAt(ms, KeyIndex(ms, KeyOf(role, messageId)))
  }

  /**
   * `save_message_with_audio` keeps the constraints; it adds a message only
   * when none has the key, and never changes an existing one; without paths
   * it leaves the segments alone.
   */
  lemma SaveWithAudioFindOrCreate(t: Tables, role: string, content: Value, messageId: string,
                                  paths: Option<seq<Value>>, now: string, dumps: Dumper)
    requires ValidTables(t)
    ensures var (t', ok) := SaveWithAudio(t, role, content, messageId, paths, now, dumps);
      && ValidTables(t')
      && t'.merged == t.merged
      && t.messages <= t'.messages && |t'.messages| <= |t.messages| + 1
      && (|t'.messages| == |t.messages| + 1 <==> ok && KeyedRow(t.messages, role, messageId).None?)
      && (ok ==> KeyedRow(t'.messages, role, messageId).Some?)
      && (ok <==> !HasPaths(paths) || forall i :: 0 <= i < |paths.value| ==> GivesPath(paths.value[i], true))
      && (!HasPaths(paths) ==> t'.segments == t.segments)
      && (!ok ==> t' == t)
  {
    FoundOrNewFacts(t, role, content, messageId, now, dumps);
    var (row, ms) := FoundOrNew(t.messages, role, content, messageId, now, dumps);
    if HasPaths(paths) {
      var built := BuildSegments(Owner(row), paths.value, true);
      if built.Some? {
        BuiltPathsSet(Owner(row), paths.value, true);
        if PathsSet(built.value) {
          ReplaceKeepsPaths(t.segments, Owner(row), built.value);
        }
      } else {
        var i :| 0 <= i < |paths.value| && !paths.value[i].JObj?;
        assert !GivesPath(paths.value[i], true);
      }
    }
  }

  /** The row worked on is the keyed row afterwards, and the table keeps its constraints. */
  lemma FoundOrNewFacts(t: Tables, role: string, content: Value, messageId: string, now: string, dumps: Dumper)
    requires ValidTables(t)
    ensures var (row, ms) := FoundOrNew(t.messages, role, content, messageId, now, dumps);
      && ValidTables(t.(messages := ms))
      && t.messages <= ms && |ms| <= |t.messages| + 1
      && (|ms| == |t.messages| + 1 <==> KeyIndex(t.messages, KeyOf(role, messageId)).None?)
      && KeyedRow(ms, role, messageId) == Some(row)
      && row.id.Some? && row.id.value >= 1
  {
    var key := KeyOf(role, messageId);
    if KeyIndex(t.messages, key).None? {
      var row := NewMessage(NextId(t.messages), role, messageId, content, now, dumps);
      AppendKeepsValid(t, row);
      NewKeyLast(t.messages, row, key);
    }
  }

  /** A key absent from the table is found at the appended row that carries it. */
  lemma NewKeyLast(ms: seq<Message>, m: Message, key: string)
    requires KeyIndex(ms, key).None? && m.key == Some(key)
    ensures KeyIndex(ms + [m], key) == Some(|ms|)
  {
    var ms' := ms + [m];
    assert ms'[|ms|].key == Some(key);
    forall j | 0 <= j < |ms|
      ensures ms'[j].key != Some(key)
    {
      assert ms'[j] == ms[j];
    }
  }

  /**
   * With a non-empty list of dicts, the message's segments become exactly
   * the listed ones, in order and with the chat defaults, and every other
   * message's segments are unchanged.
   */
  lemma SaveWithAudioReplacesSegments(t: Tables, role: string, content: Value, messageId: string,
                                      paths: seq<Value>, now: string, dumps: Dumper, other: string)
    requires ValidTables(t)
    requires |paths| > 0 && forall i :: 0 <= i < |paths| ==> GivesPath(paths[i], true)
    ensures var (t', ok) := SaveWithAudio(t, role, content, messageId, Some(paths), now, dumps);
      && ok
      && KeyedRow(t'.messages, role, messageId).Some?
      && var row := KeyedRow(t'.messages, role, messageId).value;
         row.id.Some? && row.id.value >= 1
         && var owner := Owner(row);
            |OwnedBy(t'.segments, owner)| == |paths|
            && (forall i :: 0 <= i < |paths| ==> OwnedBy(t'.segments, owner)[i] == SegmentFor(owner, paths[i].fields, true))
            && (other != owner ==> OwnedBy(t'.segments, other) == OwnedBy(t.segments, other))
  {
    var (row, ms) := FoundOrNew(t.messages, role, content, messageId, now, dumps);
    FoundOrNewFacts(t, role, content, messageId, now, dumps);
    var added := BuildSegments(Owner(row), paths, true).value;
    BuiltPathsSet(Owner(row), paths, true);
    var t' := t.(messages := ms, segments := Replace(t.segments, Owner(row), added));
    assert SaveWithAudio(t, role, content, messageId, Some(paths), now, dumps) == (t', true);
    assert KeyedRow(t'.messages, role, messageId) == Some(row);
    if other != Owner(row) {
      ReplaceSegments(t.segments, Owner(row), added, other);
    } else {
      ReplaceSegments(t.segments, Owner(row), added, Owner(row) + "x");
    }
  }

  /**
   * A list entry with no keys is stored with every default of the call:
   * index 0, empty path and text, 24000 Hz; an index or rate given as `None`
   * takes the column's default instead, 0 and 16000 Hz.
   */
  lemma ChatSegmentDefaults(owner: string)
    ensures SegmentFor(owner, map[], true) == SegmentRow(owner, JNum(0), JStr(""), JStr(""), JNum(24000), JNull)
    ensures SegmentFor(owner, map["segment_index" := JNull, "sample_rate" := JNull], true)
         == SegmentRow(owner, JNum(0), JStr(""), JStr(""), JNum(16000), JNull)
  {
  }

  /**
   * `save_audio_segments` (database_service.py:359-383): the segments whose
   * `message_id` column equals the given id are replaced by the listed ones;
   * a non-dict entry, or one without a path (the NOT NULL `path` column of
   * back-end/models/audio.py:10 fails the commit), rolls back and gives False.
   */
  function SavedSegments(t: Tables, messageId: string, vs: seq<Value>): (Tables, bool)
  {
    match BuildSegments(messageId, vs, false)
    case None => (t, false)
    case Some(added) =>
      if !PathsSet(added) then (t, false)
      else (t.(segments := Replace(t.segments, messageId, added)), true)
  }

  /**
   * `save_audio_segments` succeeds exactly when every entry is a dict with a
   * path; the id's segments are then exactly the listed ones, every other
   * id's are unchanged, and the constraints still hold. On failure nothing
   * changes.
   */
  lemma SaveAudioSegmentsReplaces(t: Tables, messageId: string, vs: seq<Value>, other: string)
    requires other != messageId
    ensures var (t', ok) := SavedSegments(t, messageId, vs);
      && t'.messages == t.messages && t'.merged == t.merged
      && (ok <==> forall i :: 0 <= i < |vs| ==> GivesPath(vs[i], false))
      && (!ok ==> t' == t)
      && (ValidTables(t) ==> ValidTables(t'))
      && (ok ==> |OwnedBy(t'.segments, messageId)| == |vs|
                 && (forall i :: 0 <= i < |vs| ==> OwnedBy(t'.segments, messageId)[i] == SegmentFor(messageId, vs[i].fields, false))
                 && OwnedBy(t'.segments, other) == OwnedBy(t.segments, other))
  {
    var built := BuildSegments(messageId, vs, false);
    if built.Some? {
      BuiltPathsSet(messageId, vs, false);
      if PathsSet(built.value) {
        ReplaceSegments(t.segments, messageId, built.value, other);
        if ValidTables(t) {
          ReplaceKeepsPaths(t.segments, messageId, built.value);
        }
      }
    } else {
      var i :| 0 <= i < |vs| && !vs[i].JObj?;
      assert !GivesPath(vs[i], false);
    }
  }

  /**
   * A segment dict without a path fails the save, and one with a path but no
   * rate is stored at the column's 16000 Hz.
   */
  lemma SegmentPathRequired(t: Tables, messageId: string)
    ensures SavedSegments(t, messageId, [JObj(map[])]) == (t, false)
    ensures SegmentFor(messageId, map["path" := JStr("a.wav")], false)
         == SegmentRow(messageId, JNum(0), JStr("a.wav"), JNull, JNum(16000), JNull)
  {
    var vs := [JObj(map[])];
    assert BuildSegments(messageId, vs, false).Some?;
    BuiltPathsSet(messageId, vs, false);
    assert !GivesPath(vs[0], false);
  }

  // ---------------------------------------------------------------------------
  // The two message writes as written
  // ---------------------------------------------------------------------------

  /** The columns of the `Message` class database_service.py imports (back-end/models/message.py:8-26). */
  const MessageColumns: set<string> :=
    {"id", "key", "message_id", "role", "content", "content_english", "content_chinese",
     "audio_path", "image_path", "created_at"}

  /** The columns of the `AudioSegment` class it imports (back-end/models/audio.py:8-13). */
  const SegmentColumns: set<string> := {"id", "message_id", "path", "segment_index", "sample_rate", "duration"}

  /** The keywords both writes pass to `Message` (database_service.py:41-47, 72-78). */
  const MessageKeywords: set<string> := {"key", "role", "message_id", "content", "timestamp"}

  /** The keywords `save_message_with_audio` passes to `AudioSegment` (database_service.py:89-95). */
  const ChatSegmentKeywords: set<string> := {"message_id", "segment_index", "path", "text", "sample_rate"}

  /** The declarative constructor raises `TypeError` on a keyword that names no column. */
  predicate Constructs(columns: set<string>, keywords: set<string>)
  {
    keywords <= columns
  }

  /**
   * `save_message` as written: the row is built before any query, so when
   * the constructor raises the exception handler returns None and nothing
   * is stored.
   */
  function SavedMessageAsWritten(t: Tables, role: string, content: Value, uuid: string, now: string, dumps: Dumper)
    : (Tables, Option<string>)
  {
    if Constructs(MessageColumns, MessageKeywords) then SavedMessage(t, role, content, uuid, now, dumps)
    else (t, None)
  }

  /**
   * `save_message_with_audio` as written: creating the message, or building
   * a segment, raises inside the session, which closes without a commit, and
   * the call returns False.
   */
  function SaveWithAudioAsWritten(t: Tables, role: string, content: Value, messageId: string,
                                  paths: Option<seq<Value>>, now: string, dumps: Dumper): (Tables, bool)
    requires ValidTables(t)
  {
    if KeyIndex(t.messages, KeyOf(role, messageId)).None? && !Constructs(MessageColumns, MessageKeywords) then (t, false)
    else if HasPaths(paths) && !Constructs(SegmentColumns, ChatSegmentKeywords) then (t, false)
    else SaveWithAudio(t, role, content, messageId, paths, now, dumps)
  }

  /**
   * The discrepancy in `save_message`: as written no call ever stores a
   * message, where the intended save stores it under a free key and returns
   * its id.
   */
  lemma SaveMessageLostAsWritten(t: Tables, role: string, content: Value, uuid: string, now: string, dumps: Dumper)
    ensures SavedMessageAsWritten(t, role, content, uuid, now, dumps) == (t, None)
    ensures KeyIndex(t.messages, KeyOf(role, uuid)).None? ==> SavedMessage(t, role, content, uuid, now, dumps).1 == Some(uuid)
  {
    assert "timestamp" in MessageKeywords && "timestamp" !in MessageColumns;
  }

  /**
   * The discrepancy in `save_message_with_audio`: as written it succeeds only
   * for a message that already exists and an empty list of paths, and then
   * changes nothing; the intended save also succeeds for a new message, and
   * for any list of dicts with paths.
   */
  lemma SaveWithAudioLostAsWritten(t: Tables, role: string, content: Value, messageId: string,
                                   paths: Option<seq<Value>>, now: string, dumps: Dumper)
    requires ValidTables(t)
    ensures var (t', ok) := SaveWithAudioAsWritten(t, role, content, messageId, paths, now, dumps);
      && (ok <==> KeyIndex(t.messages, KeyOf(role, messageId)).Some? && !HasPaths(paths))
      && t' == t
    ensures !HasPaths(paths) ==> SaveWithAudio(t, role, content, messageId, paths, now, dumps).1
  {
    assert "timestamp" in MessageKeywords && "timestamp" !in MessageColumns;
    assert "text" in ChatSegmentKeywords && "text" !in SegmentColumns;
  }

  // ---------------------------------------------------------------------------
  // Clearing, id normalisation, audio paths, merged audio
  // ---------------------------------------------------------------------------

  /** `clear_session` (database_service.py:241-255). */
  function Cleared(t: Tables): (r: Tables)
    ensures ValidTables(r)
  {
    Tables([], [], [])
  }

  /** After clearing, no lookup finds anything. */
  lemma ClearedFindsNothing(t: Tables, id: string)
    ensures ById(Cleared(t).messages, id).None?
    ensures ByFlexibleId(Cleared(t).messages, id).None?
    ensures KeyedRow(Cleared(t).messages, "assistant", id).None?
  {
  }

  const Marker := "assistant-"

  /** A row on which `ensure_consistent_message_ids` raises: a null key, or a null id beside the marker. */
  predicate Breaks(m: Message)
  {
    m.key.None? || (Contains(m.key.value, Marker) && m.messageId.None?)
  }

  /** The row's key holds the marker but does not end with its `message_id`. */
  predicate NeedsFix(m: Message)
  {
    m.key.Some? && m.messageId.Some? && Contains(m.key.value, Marker) && !EndsWith(m.key.value, m.messageId.value)
  }

  /** `key.split("assistant-", 1)[1]`: the text after the first marker. */
  function AfterMarker(key: string): (r: string)
    requires Contains(key, Marker)
    ensures EndsWith(key, r)
  {
    key[Find(key, Marker) + |Marker|..]
  }

  function FixRow(m: Message): (r: Message)
    ensures r.id == m.id && r.key == m.key && r.(messageId := m.messageId) == m
  {
    if NeedsFix(m) then m.(messageId := Some(AfterMarker(m.key.value))) else m
  }

  function FixAll(ms: seq<Message>): (r: seq<Message>)
    ensures |r| == |ms| && forall i :: 0 <= i < |ms| ==> r[i] == FixRow(ms[i])
  {
    seq(|ms|, i requires 0 <= i < |ms| => FixRow(ms[i]))
  }

  /** The number of rows needing a fix. */
  function FixCount(ms: seq<Message>): nat
  {
    if |ms| == 0 then 0 else FixCount(ms[..|ms| - 1]) + (if NeedsFix(ms[|ms| - 1]) then 1 else 0)
  }

  /**
   * `ensure_consistent_message_ids` (database_service.py:296-327): every row
   * whose key holds `assistant-` but does not end with its `message_id` gets
   * the text after the first marker as its id, and the count of such rows is
   * returned; a row the loop raises on rolls back and gives 0.
   */
  function EnsureConsistent(t: Tables): (Tables, nat)
  {
    if exists i :: 0 <= i < |t.messages| && Breaks(t.messages[i]) then (t, 0)
    else (t.(messages := FixAll(t.messages)), FixCount(t.messages))
  }

  /** The number of positions at which two equally long lists differ. */
  function Differences(a: seq<Message>, b: seq<Message>): nat
    requires |a| == |b|
  {
    if |a| == 0 then 0
    else Differences(a[..|a| - 1], b[..|b| - 1]) + (if a[|a| - 1] != b[|b| - 1] then 1 else 0)
  }

  lemma FixChanges(m: Message)
    ensures NeedsFix(m) <==> FixRow(m) != m
  {
    if NeedsFix(m) {
      assert EndsWith(m.key.value, AfterMarker(m.key.value));
    }
  }

  /** The count returned is the number of rows actually rewritten. */
  lemma {:induction false} FixCountIsDifferences(ms: seq<Message>)
    ensures FixCount(ms) == Differences(ms, FixAll(ms))
    decreases |ms|
  {
    if |ms| > 0 {
      var init := ms[..|ms| - 1];
      FixCountIsDifferences(init);
      assert FixAll(ms)[..|ms| - 1] == FixAll(init);
      FixChanges(ms[|ms| - 1]);
    }
  }

  lemma {:induction false} FixCountZero(ms: seq<Message>)
    requires forall i :: 0 <= i < |ms| ==> !NeedsFix(ms[i])
    ensures FixCount(ms) == 0
    decreases |ms|
  {
    if |ms| > 0 {
      FixCountZero(ms[..|ms| - 1]);
    }
  }

  lemma FixStep(ms: seq<Message>, i: nat)
    requires i < |ms|
    ensures FixAll(ms[..i + 1]) == FixAll(ms[..i]) + [FixRow(ms[i])]
    ensures FixCount(ms[..i + 1]) == FixCount(ms[..i]) + (if NeedsFix(ms[i]) then 1 else 0)
  {
    assert ms[..i + 1][..i] == ms[..i];
  }

  /** After a run, every key holding the marker ends with its row's `message_id`. */
  lemma EnsureConsistentSound(t: Tables)
    requires ValidTables(t)
    ensures var (t', n) := EnsureConsistent(t);
      && ValidTables(t')
      && t'.segments == t.segments && t'.merged == t.merged && |t'.messages| == |t.messages|
      && (forall i :: 0 <= i < |t.messages| ==> t'.messages[i].(messageId := t.messages[i].messageId) == t.messages[i])
      && (n > 0 ==> forall i :: 0 <= i < |t'.messages| ==> !NeedsFix(t'.messages[i]))
  {
    var (t', n) := EnsureConsistent(t);
    if !exists i :: 0 <= i < |t.messages| && Breaks(t.messages[i]) {
      forall i | 0 <= i < |t'.messages|
        ensures !NeedsFix(t'.messages[i])
      {
        var m := t.messages[i];
        if NeedsFix(m) {
          assert EndsWith(m.key.value, AfterMarker(m.key.value));
        }
      }
    }
  }

  /** A second run changes nothing and reports 0. */
  lemma EnsureConsistentIdempotent(t: Tables)
    ensures var t' := EnsureConsistent(t).0;
      EnsureConsistent(t') == (t', 0)
  {
    var t' := EnsureConsistent(t).0;
    if exists i :: 0 <= i < |t.messages| && Breaks(t.messages[i]) {
      var i :| 0 <= i < |t.messages| && Breaks(t.messages[i]);
      assert Breaks(t'.messages[i]);
    } else {
      forall i | 0 <= i < |t'.messages|
        ensures !NeedsFix(t'.messages[i]) && !Breaks(t'.messages[i])
      {
        var m := t.messages[i];
        if NeedsFix(m) {
          assert EndsWith(m.key.value, AfterMarker(m.key.value));
        }
        assert !Breaks(m);
      }
      FixCountZero(t'.messages);
      assert FixAll(t'.messages) == t'.messages;
    }
  }

  /** The row `update_message_audio_path` updates: by `message_id`, else by numeric id (database_service.py:389-394). */
  function AudioTarget(ms: seq<Message>, id: string): (r: Option<nat>)
    ensures r.Some? ==> r.value < |ms|
  {
    var exact := FirstWhere(ms, (m: Message) => m.messageId == Some(id));
    if exact.Some? || !IsDigits(id) then exact
    else FirstWhere(ms, (m: Message) => m.id == Some(DigitsValue(id)))
  }

  /** `update_message_audio_path` (database_service.py:385-424). */
  function UpdateAudioPath(t: Tables, id: string, path: string): (Tables, bool)
  {
    var target := AudioTarget(t.messages, id);
    if target.None? then (t, false)
    else
      var i := target.value;
      (t.(messages := t.messages[i := t.messages[i].(audioPath := Some(path))]), true)
  }

  /**
   * Updating an audio path changes exactly one row's `audio_path` when the id
   * matches a `message_id`, or a numeric row id when it is all digits;
   * otherwise it reports False and changes nothing.
   */
  lemma UpdateAudioPathOneRow(t: Tables, id: string, path: string)
    requires ValidTables(t)
    ensures var (t', ok) := UpdateAudioPath(t, id, path);
      && ValidTables(t')
      && t'.segments == t.segments && t'.merged == t.merged && |t'.messages| == |t.messages|
      && (ok <==> exists i :: 0 <= i < |t.messages| &&
                    (t.messages[i].messageId == Some(id) || (IsDigits(id) && t.messages[i].id == Some(DigitsValue(id)))))
      && (!ok ==> t' == t)
      && (ok ==> exists i :: 0 <= i < |t.messages| && t'.messages == t.messages[i := t.messages[i].(audioPath := Some(path))])
  {
    var (t', ok) := UpdateAudioPath(t, id, path);
    var exact := FirstWhere(t.messages, (m: Message) => m.messageId == Some(id));
    if exact.None? && IsDigits(id) {
      var byNum := FirstWhere(t.messages, (m: Message) => m.id == Some(DigitsValue(id)));
      if ok {
        assert byNum.Some?;
      } else {
        forall i | 0 <= i < |t.messages|
          ensures !(t.messages[i].messageId == Some(id) || t.messages[i].id == Some(DigitsValue(id)))
        {
          assert !((m: Message) => m.id == Some(DigitsValue(id)))(t.messages[i]);
          assert !((m: Message) => m.messageId == Some(id))(t.messages[i]);
        }
      }
    } else if exact.None? {
      forall i | 0 <= i < |t.messages|
        ensures t.messages[i].messageId != Some(id)
      {
        assert !((m: Message) => m.messageId == Some(id))(t.messages[i]);
      }
    }
  }

  /**
   * The merged record built from a dict naming a message and a path, with
   * the call's defaults (database_service.py:439-445); a `None` rate or
   * count takes the column default of back-end/models/audio.py:21,23,
   * while `duration` has none and stays NULL.
   */
  function MergedRowOf(d: map<string, Value>): (r: MergedRow)
    requires "message_id" in d && "path" in d
    ensures r.messageId == d["message_id"] && r.path == d["path"]
    ensures r.sampleRate != JNull && r.segmentsCount != JNull
    ensures "sample_rate" !in d ==> r.sampleRate == JNum(24000)
    ensures "segments_count" !in d ==> r.segmentsCount == JNum(0)
    ensures "sample_rate" in d && d["sample_rate"] != JNull ==> r.sampleRate == d["sample_rate"]
    ensures "segments_count" in d && d["segments_count"] != JNull ==> r.segmentsCount == d["segments_count"]
  {
    MergedRow(d["message_id"], d["path"], ColumnValue(Field(d, "sample_rate", JNum(24000)), JNum(24000)),
              Field(d, "duration", JNum(0)), ColumnValue(Field(d, "segments_count", JNum(0)), JNum(0)))
  }

  /** `save_merged_audio` (database_service.py:426-455): always an insert, never an update. */
  function SaveMerged(t: Tables, d: map<string, Value>): (Tables, bool)
  {
    if "message_id" !in d || "path" !in d then (t, false)
    else
      var row := MergedRowOf(d);
      if row.messageId == JNull || row.path == JNull then (t, false)
      else if exists i :: 0 <= i < |t.merged| && t.merged[i].messageId == row.messageId then (t, false)
      else (t.(merged := t.merged + [row]), true)
  }

  /**
   * A merged record is inserted, with defaults 24000 Hz, duration 0 and
   * count 0 (a `None` rate or count also takes its column default), exactly when the dict names a message and a path and that
   * message has no record yet; existing records are never changed.
   */
  lemma SaveMergedInsertOnly(t: Tables, d: map<string, Value>)
    requires ValidTables(t)
    ensures var (t', ok) := SaveMerged(t, d);
      && ValidTables(t')
      && t'.messages == t.messages && t'.segments == t.segments
      && t.merged <= t'.merged
      && (ok <==> "message_id" in d && "path" in d && d["message_id"] != JNull && d["path"] != JNull
                  && forall i :: 0 <= i < |t.merged| ==> t.merged[i].messageId != d["message_id"])
      && (!ok ==> t' == t)
      && (ok ==> t'.merged == t.merged + [MergedRowOf(d)])
  {
  }

  /** Saving the merged audio of a message a second time fails and changes nothing. */
  lemma SaveMergedTwiceFails(t: Tables, d: map<string, Value>)
    requires SaveMerged(t, d).1
    ensures var t' := SaveMerged(t, d).0;
      SaveMerged(t', d) == (t', false)
  {
    var t' := SaveMerged(t, d).0;
    assert t'.merged[|t.merged|].messageId == d["message_id"];
  }

  // ---------------------------------------------------------------------------
  // The service object
  // ---------------------------------------------------------------------------

  class DatabaseService {
    var messages: seq<Message>
    var segments: seq<SegmentRow>
    var merged: seq<MergedRow>

    function State(): Tables
      reads this
    {
      Tables(messages, segments, merged)
    }

    predicate Valid()
      reads this
    {
      ValidTables(State())
    }

    /** A service over an existing database, whose tables meet their constraints. */
    constructor(initial: Tables)
      requires ValidTables(initial)
      ensures State() == initial && Valid()
    {
      messages := initial.messages;
      segments := initial.segments;
      merged := initial.merged;
    }

    /** `save_message`, with the added id, the clock and `json.dumps` supplied by the caller. */
    method SaveMessage(role: string, content: Value, uuid: string, now: string, dumps: Dumper)
      returns (r: Option<string>)
      requires Valid()
      modifies this
      ensures Valid()
      ensures (State(), r) == SavedMessage(old(State()), role, content, uuid, now, dumps)
    {
      SaveMessageAppends(State(), role, content, uuid, now, dumps);
      var key := KeyOf(role, uuid);
      if KeyIndex(messages, key).Some? {
        return None;
      }
      var m := NewMessage(NextId(messages), role, uuid, content, now, dumps);
      messages := messages + [m];
      r := Some(uuid);
    }

    /** `save_message_with_audio`: find or create the message, then replace its segments from the list. */
    method SaveMessageWithAudio(role: string, content: Value, messageId: string, paths: Option<seq<Value>>,
                                now: string, dumps: Dumper)
      returns (ok: bool)
      requires Valid()
      modifies this
      ensures Valid()
      ensures (State(), ok) == SaveWithAudio(old(State()), role, content, messageId, paths, now, dumps)
    {
      SaveWithAudioFindOrCreate(State(), role, content, messageId, paths, now, dumps);
      var (row, ms) := FoundOrNew(messages, role, content, messageId, now, dumps);
      if !HasPaths(paths) {
        messages := ms;
        return true;
      }
      var owner := Owner(row);
      var added := CollectSegments(owner, paths.value, true);
      if added.None? || !PathsSet(added.value) {
        return false;
      }
      messages := ms;
      segments := NotOwnedBy(segments, owner) + added.value;
      ok := true;
    }

    /** The insert loop shared by both segment writers; a non-dict entry stops it. */
    method CollectSegments(owner: string, vs: seq<Value>, fromChat: bool) returns (r: Option<seq<SegmentRow>>)
      ensures r == BuildSegments(owner, vs, fromChat)
    {
      var added: seq<SegmentRow> := [];
      for i := 0 to |vs|
        invariant BuildSegments(owner, vs[..i], fromChat) == Some(added)
      {
        assert vs[..i + 1][..i] == vs[..i];
        if !vs[i].JObj? {
          return None;
        }
        added := added + [SegmentFor(owner, vs[i].fields, fromChat)];
      }
      assert vs[..|vs|] == vs;
      r := Some(added);
    }

    /** `save_audio_segments`. */
    method SaveAudioSegments(messageId: string, vs: seq<Value>) returns (ok: bool)
      requires Valid()
      modifies this
      ensures Valid()
      ensures (State(), ok) == SavedSegments(old(State()), messageId, vs)
    {
      SaveAudioSegmentsReplaces(State(), messageId, vs, messageId + "x");
      var added := CollectSegments(messageId, vs, false);
      if added.None? || !PathsSet(added.value) {
        return false;
      }
      segments := NotOwnedBy(segments, messageId) + added.value;
      ok := true;
    }

    /** `get_message_by_id`: the found row as a dict, or None. */
    function GetMessageById(id: string, parse: Parser): (r: Option<map<string, Value>>)
      reads this
      ensures r.Some? <==> exists i :: 0 <= i < |messages| && IdHit(messages[i], id)
    {
      ByIdNoneIff(messages, id);
      match ById(messages, id)
      case Some(m) => Some(ToDict(m, parse))
      case None => None
    }

    /** `get_message_by_flexible_id`: the found row as a dict, or None. */
    function GetMessageByFlexibleId(id: string, parse: Parser): (r: Option<map<string, Value>>)
      reads this
      ensures ById(messages, id).Some? ==> r.Some?
      ensures r.None? <==> forall j :: 0 <= j < |messages| ==> !FlexHit(messages[j], id)
      ensures r.Some? ==> exists m :: m in messages && r.value == ToDict(m, parse)
    {
      FlexibleFindsWhatByIdFinds(messages, id);
      FlexibleNoneIff(messages, id);
      match ByFlexibleId(messages, id)
      case Some(m) => Some(ToDict(m, parse))
      case None => None
    }

    /** `clear_session`. */
    method ClearSession() returns (ok: bool)
      modifies this
      ensures Valid() && State() == Cleared(old(State())) && ok
    {
      messages := [];
      segments := [];
      merged := [];
      ok := true;
    }

    /** `ensure_consistent_message_ids`: a loop over the rows counting those it rewrites. */
    method EnsureConsistentMessageIds() returns (updated: nat)
      requires Valid()
      modifies this
      ensures Valid()
      ensures (State(), updated) == EnsureConsistent(old(State()))
    {
      EnsureConsistentSound(State());
      var fixed, n := FixRows(messages);
      if fixed.None? {
        return 0;
      }
      messages := fixed.value;
      updated := n;
    }

    /** The row loop: each row is rewritten or kept, and a row without a usable key stops it. */
    method FixRows(ms: seq<Message>) returns (fixed: Option<seq<Message>>, updated: nat)
      ensures fixed.None? <==> exists i :: 0 <= i < |ms| && Breaks(ms[i])
      ensures fixed.Some? ==> fixed.value == FixAll(ms) && updated == FixCount(ms)
    {
      var rows: seq<Message> := [];
      updated := 0;
      for i := 0 to |ms|
        invariant rows == FixAll(ms[..i])
        invariant updated == FixCount(ms[..i])
        invariant forall j :: 0 <= j < i ==> !Breaks(ms[j])
      {
        var m := ms[i];
        if m.key.None? || (Contains(m.key.value, Marker) && m.messageId.None?) {
          assert Breaks(ms[i]);
          return None, 0;
        }
        FixStep(ms, i);
        if NeedsFix(m) {
          updated := updated + 1;
        }
        rows := rows + [FixRow(m)];
      }
      assert ms[..|ms|] == ms;
      fixed := Some(rows);
    }

    /** `update_message_audio_path`. */
    method UpdateMessageAudioPath(id: string, path: string) returns (ok: bool)
      requires Valid()
      modifies this
      ensures Valid()
      ensures (State(), ok) == UpdateAudioPath(old(State()), id, path)
    {
      UpdateAudioPathOneRow(State(), id, path);
      var target := AudioTarget(messages, id);
      if target.None? {
        return false;
      }
      var i := target.value;
      messages := messages[i := messages[i].(audioPath := Some(path))];
      ok := true;
    }

    /** `save_merged_audio`. */
    method SaveMergedAudio(d: map<string, Value>) returns (ok: bool)
      requires Valid()
      modifies this
      ensures Valid()
      ensures (State(), ok) == SaveMerged(old(State()), d)
    {
      SaveMergedInsertOnly(State(), d);
      if "message_id" !in d || "path" !in d {
        return false;
      }
      var row := MergedRowOf(d);
      if row.messageId == JNull || row.path == JNull {
        return false;
      }
      if exists i :: 0 <= i < |merged| && merged[i].messageId == row.messageId {
        return false;
      }
      merged := merged + [row];
      ok := true;
    }
  }
}
