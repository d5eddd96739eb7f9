/**
 * The stored chat message row and its dictionary form
 * (back-end/models/message.py): `to_dict` decodes JSON content, falls back
 * to the separate English/Chinese columns, and lists the comma-separated
 * image paths.
 */
module MessageModel {
  import opened Wrappers
  import opened Json
  import opened Strs

  /**
   * A row of the `messages` table. `createdAt` holds the timestamp already
   * written in ISO 8601 form (`isoformat()`), or None when unset.
   */
  datatype Message = Message(
    id: Option<int>,
    key: Option<string>,
    messageId: Option<string>,
    role: string,
    content: Option<string>,
    contentEnglish: Option<string>,
    contentChinese: Option<string>,
    audioPath: Option<string>,
    imagePath: Option<string>,
    createdAt: Option<string>)

  /** `json.loads`: the decoded value, or None when the text is not JSON. */
  type Parser = string -> Option<Value>

  /** Python's truthiness of an optional string column. */
  predicate Set(s: Option<string>)
  {
    s.Some? && s.value != ""
  }

  function OptStr(s: Option<string>): Value
  {
    if s.Some? then JStr(s.value) else JNull
  }

  function OptNum(n: Option<int>): Value
  {
    if n.Some? then JNum(n.value) else JNull
  }

  /** `{"image_path": p}`. */
  function Entry(p: string): Value
  {
    JObj(map["image_path" := JStr(p)])
  }

  /** The entries for the given paths, in order. */
  function Wrapped(ps: seq<string>): (r: seq<Value>)
    ensures |r| == |ps| && forall i :: 0 <= i < |ps| ==> r[i] == Entry(ps[i])
  {
    seq(|ps|, i requires 0 <= i < |ps| => Entry(ps[i]))
  }

  /** The paths kept by `[p.strip() for p in parts if p.strip()]`, in order. */
  function ImagePaths(parts: seq<string>): (r: seq<string>)
    ensures |r| <= |parts|
  {
    if |parts| == 0 then []
    else
      var p := Strip(parts[0]);
      (if p != "" then [p] else []) + ImagePaths(parts[1..])
  }

  /** `images` for a non-empty `image_path`: split on commas, strip, drop empties. */
  function Images(imagePath: string): seq<Value>
  {
    Wrapped(ImagePaths(SplitBy(imagePath, ",")))
  }

  /** The `content` entry, when the row has one. */
  function ContentOf(m: Message, parse: Parser): Option<Value>
  {
    if Set(m.content) then
      match parse(m.content.value)
      case Some(v) => Some(v)
      case None => Some(JObj(map["text" := JStr(m.content.value)]))
    else if Set(m.contentEnglish) || Set(m.contentChinese) then
      Some(JObj(map["english" := OptStr(m.contentEnglish), "chinese" := OptStr(m.contentChinese)]))
    else None
  }

  /** `Message.to_dict` (message.py:33-63). */
  function ToDict(m: Message, parse: Parser): (r: map<string, Value>)
    ensures "id" in r && "message_id" in r && "role" in r && "created_at" in r
    ensures r["role"] == JStr(m.role)
    ensures r["created_at"] == JNull || r["created_at"].JStr?
    ensures "content" in r <==> ContentOf(m, parse).Some?
    ensures "audio_path" in r <==> Set(m.audioPath)
    ensures "images" in r <==> Set(m.imagePath)
    ensures r.Keys <= {"id", "message_id", "role", "created_at", "content", "audio_path", "images"}
  {
    var base := map["id" := OptNum(m.id), "message_id" := OptStr(m.messageId),
                    "role" := JStr(m.role), "created_at" := OptStr(m.createdAt)];
    var c := ContentOf(m, parse);
    var withContent := if c.Some? then base["content" := c.value] else base;
    var withAudio := if Set(m.audioPath) then withContent["audio_path" := JStr(m.audioPath.value)] else withContent;
    if Set(m.imagePath) then withAudio["images" := JArr(Images(m.imagePath.value))] else withAudio
  }

  /** Non-empty content that parses as JSON is returned decoded. */
  lemma JsonContentDecoded(m: Message, parse: Parser)
    requires Set(m.content) && parse(m.content.value).Some?
    ensures ToDict(m, parse)["content"] == parse(m.content.value).value
  {
  }

  /** Non-empty content that does not parse is wrapped as `{"text": content}`. */
  lemma PlainContentWrapped(m: Message, parse: Parser)
    requires Set(m.content) && parse(m.content.value).None?
    ensures ToDict(m, parse)["content"] == JObj(map["text" := JStr(m.content.value)])
  {
  }

  /**
   * With no `content`, the separate columns are used when either is set, and
   * there is no `content` key when neither is.
   */
  lemma SeparateColumnsUsed(m: Message, parse: Parser)
    requires !Set(m.content)
    ensures Set(m.contentEnglish) || Set(m.contentChinese) ==>
      ToDict(m, parse)["content"]
        == JObj(map["english" := OptStr(m.contentEnglish), "chinese" := OptStr(m.contentChinese)])
    ensures !Set(m.contentEnglish) && !Set(m.contentChinese) ==> "content" !in ToDict(m, parse)
  {
  }

  /** The audio path, when present, is the column's text. */
  lemma AudioPathCopied(m: Message, parse: Parser)
    requires Set(m.audioPath)
    ensures ToDict(m, parse)["audio_path"] == JStr(m.audioPath.value)
  {
  }

  /** Stripping removes characters from the ends only, so it keeps a text comma-free. */
  lemma StripCommaFree(q: string)
    requires ',' !in q
    ensures ',' !in Strip(q) && Strip(Strip(q)) == Strip(q)
  {
    StripIdempotent(q);
    var l := LStrip(q);
    AbsentFromSuffix(q, ',', |q| - |l|);
    AbsentFromPrefix(l, ',', |RStrip(l)|);
  }

  lemma AbsentFromSuffix(s: string, c: char, i: int)
    requires c !in s && 0 <= i <= |s|
    ensures c !in s[i..]
  {
    var t := s[i..];
    forall k | 0 <= k < |t|
      ensures t[k] != c
    {
      assert t[k] == s[i + k];
    }
  }

  lemma AbsentFromPrefix(s: string, c: char, i: int)
    requires c !in s && 0 <= i <= |s|
    ensures c !in s[..i]
  {
    var t := s[..i];
    forall k | 0 <= k < |t|
      ensures t[k] != c
    {
      assert t[k] == s[k];
    }
  }

  /** A path as it can be listed: non-blank, stripped, free of commas. */
  predicate Clean(p: string)
  {
    p != "" && Strip(p) == p && ',' !in p
  }

  /** Every listed image path is clean. */
  lemma {:induction false} ImagePathsClean(parts: seq<string>)
    requires forall q :: q in parts ==> ',' !in q
    ensures forall p :: p in ImagePaths(parts) ==> Clean(p)
    decreases |parts|
  {
    if |parts| > 0 {
      assert forall q :: q in parts[1..] ==> q in parts;
      ImagePathsClean(parts[1..]);
      StripCommaFree(parts[0]);
    }
  }

  /** The image paths of a row are clean. */
  lemma ImagesClean(imagePath: string)
    ensures forall p :: p in ImagePaths(SplitBy(imagePath, ",")) ==> Clean(p)
  {
    SplitByPartsFree(imagePath, ",");
    var parts := SplitBy(imagePath, ",");
    forall q | q in parts
      ensures ',' !in q
    {
      if ',' in q {
        var j :| 0 <= j < |q| && q[j] == ',';
        assert q[j..j + 1] == ",";
        assert OccursAt(q, ",", j);
      }
    }
    ImagePathsClean(parts);
  }

  /** Clean paths are kept unchanged and in order. */
  lemma {:induction false} ImagePathsOfClean(ps: seq<string>)
    requires forall p :: p in ps ==> Clean(p)
    ensures ImagePaths(ps) == ps
    decreases |ps|
  {
    if |ps| > 0 {
      var h, t := ps[0], ps[1..];
      forall p | p in t
        ensures Clean(p)
      {
        assert p in ps;
      }
      ImagePathsOfClean(t);
      assert ps == [h] + t;
      ImagePathsCons(h, t);
    }
  }

  lemma ImagePathsCons(h: string, t: seq<string>)
    requires Clean(h)
    ensures ImagePaths([h] + t) == [h] + ImagePaths(t)
  {
    var ps := [h] + t;
    assert ps[0] == h && ps[1..] == t;
  }

  /**
   * Round trip with the comma-joined storage form: a list of clean paths
   * stored as `",".join(paths)` is listed back as exactly those paths, in
   * order.
   */
  lemma ImagesRoundTrip(ps: seq<string>)
    requires |ps| > 0
    requires forall p :: p in ps ==> Clean(p)
    ensures Images(Join(",", ps)) == Wrapped(ps)
  {
    SplitJoinChar(',', ps);
    assert [','] == ",";
    ImagePathsOfClean(ps);
  }
}
