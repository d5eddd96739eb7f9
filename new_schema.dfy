/**
 * The tables the legacy migrations write: `messages` with a unique `key`,
 * `audio_segments` and `merged_audios`, both pointing at a message by its
 * integer id. These are the columns of back-end/models/database_models.py,
 * which back-end/migrate_db.py imports; back-end/rebuild_db.py imports the
 * classes of back-end/models/message.py and back-end/models/audio.py instead,
 * and the model takes database_models.py's columns as the schema both
 * migrations intend. A migration works in one session
 * on a freshly created database: every `db.add(message); db.flush()` gives the
 * row the next autoincrement id, and nothing is kept unless the session
 * commits.
 */
module NewSchema {
  import opened Wrappers
  import opened Json
  import Database

  /** A `messages` row; `content` and `timestamp` are the values handed to the columns. */
  datatype MessageRow = MessageRow(id: nat, key: string, role: string, messageId: string,
                                   content: Value, timestamp: Value)

  /** An `audio_segments` row; `owner` is the message's integer id. */
  datatype SegmentRow = SegmentRow(owner: nat, segmentIndex: Value, path: Value, text: Value, sampleRate: Value)

  /** A `merged_audios` row; `owner` is the message's integer id. */
  datatype MergedRow = MergedRow(owner: nat, path: Value, sampleRate: Value)

  datatype Tables = Tables(messages: seq<MessageRow>, segments: seq<SegmentRow>, merged: seq<MergedRow>)

  /** The database right after `init_db` on a new path. */
  const Empty := Tables([], [], [])

  /** `d.get(k, default)` on a legacy dict. */
  function Field(d: map<string, Value>, k: string, default: Value): Value
  {
    if k in d then d[k] else default
  }

  /** `isinstance(value, dict) and k in value and value[k]`. */
  predicate HasTruthy(value: Value, k: string)
  {
    value.JObj? && k in value.fields && Truthy(value.fields[k])
  }

  /**
   * The rate a legacy dict stores (back-end/migrate_db.py:75, 84 and
   * back-end/rebuild_db.py:134, 143): `get('sample_rate', 24000)`, and a
   * `None` there takes the column default 24000 (database_models.py:50, 70).
   */
  function RateOf(d: map<string, Value>): (r: Value)
    ensures r != JNull
    ensures "sample_rate" !in d || d["sample_rate"] == JNull ==> r == JNum(24000)
    ensures "sample_rate" in d && d["sample_rate"] != JNull ==> r == d["sample_rate"]
  {
    Database.ColumnValue(Field(d, "sample_rate", JNum(24000)), JNum(24000))
  }

  /**
   * The row built from one legacy `audio_paths` entry, with the defaults 0,
   * '', '' and 24000; the index, path and text columns have no column
   * default, so a `None` there is stored as NULL.
   */
  function SegmentFor(owner: nat, d: map<string, Value>): SegmentRow
  {
    SegmentRow(owner, Field(d, "segment_index", JNum(0)), Field(d, "path", JStr("")),
               Field(d, "text", JStr("")), RateOf(d))
  }

  /**
   * The segment rows of one legacy value: none unless `audio_paths` is
   * truthy; then one per entry, in order. None when the loop raises: a truthy
   * `audio_paths` that is not a list, or an entry that is not a dict.
   */
  function SegmentsOf(value: Value, owner: nat): (r: Option<seq<SegmentRow>>)
    ensures !HasTruthy(value, "audio_paths") ==> r == Some([])
    ensures HasTruthy(value, "audio_paths") ==>
      (r.Some? <==> var a := value.fields["audio_paths"];
                    a.JArr? && forall i :: 0 <= i < |a.items| ==> a.items[i].JObj?)
    ensures r.Some? && HasTruthy(value, "audio_paths") ==>
      var items := value.fields["audio_paths"].items;
      |r.value| == |items| && forall i :: 0 <= i < |items| ==> r.value[i] == SegmentFor(owner, items[i].fields)
    ensures r.Some? ==> forall i :: 0 <= i < |r.value| ==> r.value[i].owner == owner && r.value[i].sampleRate != JNull
  {
    if !HasTruthy(value, "audio_paths") then Some([])
    else
      match value.fields["audio_paths"]
      case JArr(items) => EntriesFor(owner, items)
      case _ => None
  }

  /** The rows for a list of entries; None when one is not a dict. */
  function EntriesFor(owner: nat, items: seq<Value>): (r: Option<seq<SegmentRow>>)
    ensures r.Some? <==> forall i :: 0 <= i < |items| ==> items[i].JObj?
    ensures r.Some? ==> |r.value| == |items| && forall i :: 0 <= i < |items| ==> r.value[i] == SegmentFor(owner, items[i].fields)
    decreases |items|
  {
    if |items| == 0 then Some([])
    else
      var last := items[|items| - 1];
      match EntriesFor(owner, items[..|items| - 1])
      case None => None
      case Some(p) => if last.JObj? then Some(p + [SegmentFor(owner, last.fields)]) else None
  }

  /**
   * The merged record of one legacy value: none unless `merged_audio` is
   * truthy; then one, with path default '' and the rate of `RateOf`. None when
   * `merged_audio` is not a dict (`.get` raises).
   */
  function MergedOf(value: Value, owner: nat): (r: Option<seq<MergedRow>>)
  {
    if !HasTruthy(value, "merged_audio") then Some([])
    else
      var m := value.fields["merged_audio"];
      if m.JObj? then Some([MergedRow(owner, Field(m.fields, "merged_path", JStr("")), RateOf(m.fields))])
      else None
  }

  /** A merged record is written exactly for a truthy dict `merged_audio`, and never more than one. */
  lemma MergedOfCases(value: Value, owner: nat)
    ensures var r := MergedOf(value, owner);
      && (r.Some? <==> !HasTruthy(value, "merged_audio") || value.fields["merged_audio"].JObj?)
      && (r.Some? ==> |r.value| <= 1 && (|r.value| == 1 <==> HasTruthy(value, "merged_audio")))
      && (r.Some? && |r.value| == 1 ==>
            && r.value[0].owner == owner
            && r.value[0].path == Field(value.fields["merged_audio"].fields, "merged_path", JStr(""))
            && r.value[0].sampleRate == RateOf(value.fields["merged_audio"].fields)
            && r.value[0].sampleRate != JNull)
  {
  }

  /** Whether a stored message already has this key (the unique index). */
  predicate KeyTaken(t: Tables, key: string)
  {
    exists i :: 0 <= i < |t.messages| && t.messages[i].key == key
  }

  /**
   * `db.add(message); db.flush()`: the message gets the next id; a key
   * already stored violates the unique index and the flush raises.
   */
  function Insert(t: Tables, key: string, role: string, messageId: string, content: Value, timestamp: Value)
    : (r: Option<(Tables, nat)>)
    ensures r.Some? <==> !KeyTaken(t, key)
    ensures r.Some? ==> (r.value.1 == |t.messages| + 1
      && r.value.0 == t.(messages := t.messages + [MessageRow(r.value.1, key, role, messageId, content, timestamp)]))
  {
    if KeyTaken(t, key) then None
    else
      var id := |t.messages| + 1;
      Some((t.(messages := t.messages + [MessageRow(id, key, role, messageId, content, timestamp)]), id))
  }

  /** A message and its audio rows added in one step; None when any of them raises. */
  function AddWithAudio(t: Tables, key: string, role: string, messageId: string, content: Value,
                        timestamp: Value, value: Value): Option<Tables>
  {
    match Insert(t, key, role, messageId, content, timestamp)
    case None => None
    case Some((t1, id)) =>
      match SegmentsOf(value, id)
      case None => None
      case Some(ss) =>
        match MergedOf(value, id)
        case None => None
        case Some(ms) => Some(t1.(segments := t1.segments + ss, merged := t1.merged + ms))
  }

  /**
   * What a migration leaves consistent: ids are the positions plus one,
   * keys are distinct, every audio row names a stored message, and no message
   * has two merged records.
   */
  predicate Linked(t: Tables)
  {
    && (forall i :: 0 <= i < |t.messages| ==> t.messages[i].id == i + 1)
    && (forall i, j :: 0 <= i < j < |t.messages| ==> t.messages[i].key != t.messages[j].key)
    && (forall k :: 0 <= k < |t.segments| ==> 1 <= t.segments[k].owner <= |t.messages|)
    && (forall k :: 0 <= k < |t.merged| ==> 1 <= t.merged[k].owner <= |t.messages|)
    && (forall k, l :: 0 <= k < l < |t.merged| ==> t.merged[k].owner != t.merged[l].owner)
  }

  lemma EmptyLinked()
    ensures Linked(Empty)
  {
  }

  /**
   * Adding a message with its audio keeps the tables linked, appends exactly
   * that message, and puts its audio rows after the earlier ones, all owned
   * by the new id.
   */
  lemma AddWithAudioLinked(t: Tables, key: string, role: string, messageId: string, content: Value,
                           timestamp: Value, value: Value)
    requires Linked(t)
    requires AddWithAudio(t, key, role, messageId, content, timestamp, value).Some?
    ensures var t' := AddWithAudio(t, key, role, messageId, content, timestamp, value).value;
      && Linked(t')
      && t'.messages == t.messages + [MessageRow(|t.messages| + 1, key, role, messageId, content, timestamp)]
      && t.segments <= t'.segments && t.merged <= t'.merged
      && (forall k :: |t.segments| <= k < |t'.segments| ==> t'.segments[k].owner == |t.messages| + 1)
      && (forall k :: |t.merged| <= k < |t'.merged| ==> t'.merged[k].owner == |t.messages| + 1)
  {
    var id := |t.messages| + 1;
    var t1 := Insert(t, key, role, messageId, content, timestamp).value.0;
    var ss := SegmentsOf(value, id).value;
    var ms := MergedOf(value, id).value;
    MergedOfCases(value, id);
    var t' := t1.(segments := t1.segments + ss, merged := t1.merged + ms);
    forall i, j | 0 <= i < j < |t'.messages|
      ensures t'.messages[i].key != t'.messages[j].key
    {
      if j == |t.messages| {
        assert t'.messages[i] == t.messages[i];
      }
    }
    forall k | 0 <= k < |t'.segments|
      ensures 1 <= t'.segments[k].owner <= |t'.messages|
    {
      if k >= |t.segments| {
        assert t'.segments[k] == ss[k - |t.segments|];
      }
    }
    forall k, l | 0 <= k < l < |t'.merged|
      ensures t'.merged[k].owner != t'.merged[l].owner
    {
      if l >= |t.merged| {
        assert t'.merged[l] == ms[l - |t.merged|];
        assert t'.merged[k] == t.merged[k];
      }
    }
  }

  /** The session a migration works in: rows added so far, not yet committed. */
  class Session {
    var messages: seq<MessageRow>
    var segments: seq<SegmentRow>
    var merged: seq<MergedRow>

    function State(): Tables
      reads this
    {
      Tables(messages, segments, merged)
    }

    /** `SessionLocal()` on the freshly created database. */
    constructor()
      ensures State() == Empty
    {
      messages, segments, merged := [], [], [];
    }

    /** `db.add(message); db.flush()`: the new id, or None when the key is taken. */
    method AddMessage(key: string, role: string, messageId: string, content: Value, timestamp: Value)
      returns (id: Option<nat>)
      modifies this
      ensures match Insert(old(State()), key, role, messageId, content, timestamp)
        case None => id.None? && State() == old(State())
        case Some((t', n)) => id == Some(n) && State() == t'
    {
      if exists i :: 0 <= i < |messages| && messages[i].key == key {
        return None;
      }
      var n := |messages| + 1;
      messages := messages + [MessageRow(n, key, role, messageId, content, timestamp)];
      id := Some(n);
    }

    /**
     * The `audio_paths` loop: one `db.add` per entry. False when the loop
     * raises; the session is then rolled back by the caller, so what was added
     * does not matter.
     */
    method AddSegments(value: Value, owner: nat) returns (ok: bool)
      modifies this
      ensures ok <==> SegmentsOf(value, owner).Some?
      ensures ok ==> State() == old(State()).(segments := old(segments) + SegmentsOf(value, owner).value)
    {
      if !(value.JObj? && "audio_paths" in value.fields && Truthy(value.fields["audio_paths"])) {
        return true;
      }
      var a := value.fields["audio_paths"];
      if !a.JArr? {
        return false;
      }
      ghost var before := segments;
      for i := 0 to |a.items|
        invariant EntriesFor(owner, a.items[..i]).Some?
        invariant segments == before + EntriesFor(owner, a.items[..i]).value
        invariant messages == old(messages) && merged == old(merged) && before == old(segments)
      {
        assert a.items[..i + 1][..i] == a.items[..i];
        var segment := a.items[i];
        if !segment.JObj? {
          NotAllDicts(a.items, i, owner);
          return false;
        }
        segments := segments + [SegmentFor(owner, segment.fields)];
      }
      assert a.items[..|a.items|] == a.items;
      ok := true;
    }

    /** The merged-audio step: one `db.add` for a truthy `merged_audio`; False when it is not a dict. */
    method AddMerged(value: Value, owner: nat) returns (ok: bool)
      modifies this
      ensures ok <==> MergedOf(value, owner).Some?
      ensures ok ==> State() == old(State()).(merged := old(merged) + MergedOf(value, owner).value)
    {
      if !(value.JObj? && "merged_audio" in value.fields && Truthy(value.fields["merged_audio"])) {
        return true;
      }
      var info := value.fields["merged_audio"];
      if !info.JObj? {
        return false;
      }
      merged := merged + [MergedRow(owner, Field(info.fields, "merged_path", JStr("")), RateOf(info.fields))];
      ok := true;
    }

    /** A message and its audio rows; False when a step raises. */
    method AddAll(key: string, role: string, messageId: string, content: Value, timestamp: Value, value: Value)
      returns (ok: bool)
      modifies this
      ensures ok <==> AddWithAudio(old(State()), key, role, messageId, content, timestamp, value).Some?
      ensures ok ==> Some(State()) == AddWithAudio(old(State()), key, role, messageId, content, timestamp, value)
    {
      var id := AddMessage(key, role, messageId, content, timestamp);
      if id.None? {
        return false;
      }
      ok := AddSegments(value, id.value);
      if !ok {
        return;
      }
      ok := AddMerged(value, id.value);
    }
  }

  /** A non-dict entry makes the whole list fail. */
  lemma NotAllDicts(items: seq<Value>, i: nat, owner: nat)
    requires i < |items| && !items[i].JObj?
    ensures EntriesFor(owner, items).None?
  {
  }
}
