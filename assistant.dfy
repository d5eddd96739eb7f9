/**
 * The assistant's audio bookkeeping (back-end/services/assistant.py): merging
 * a reply's segment files into one file and recording it, serving a
 * message's audio (merged or assembled on demand), and building the
 * `audio_info` for an update. The file system is a map from path to decoded
 * samples; the database is the ledger's service object.
 */
module Assistant {
  import opened Wrappers
  import opened Json
  import opened Strs
  import opened Database

  /** A file's decoded samples. */
  type Audio = seq<int>

  /** The files on disk: path to contents. */
  type Files = map<string, Audio>

  /** `os.path.join(dir, p)` on POSIX paths. */
  function PathJoin(dir: string, p: string): (r: string)
    ensures EndsWith(r, p)
  {
    if |p| > 0 && p[0] == '/' then p
    else if dir == "" || dir[|dir| - 1] == '/' then dir + p
    else dir + "/" + p
  }

  /** One entry of `audio_paths`: `sampleRate` is None when the dict has no `sample_rate` key. */
  datatype AudioPath = AudioPath(segmentIndex: int, path: string, sampleRate: Option<Value>)

  // ---------------------------------------------------------------------------
  // sorted(audio_paths, key=lambda x: x["segment_index"])
  // ---------------------------------------------------------------------------

  predicate SortedByIndex(xs: seq<AudioPath>)
  {
    forall i, j :: 0 <= i < j < |xs| ==> xs[i].segmentIndex <= xs[j].segmentIndex
  }

  /** Inserts `x` after every entry whose index is not larger, so equal indices keep their order. */
  function Insert(x: AudioPath, xs: seq<AudioPath>): (r: seq<AudioPath>)
    ensures |r| == |xs| + 1
    ensures multiset(r) == multiset(xs) + multiset{x}
    decreases |xs|
  {
    if |xs| == 0 || xs[|xs| - 1].segmentIndex <= x.segmentIndex then xs + [x]
    else
      assert xs == xs[..|xs| - 1] + [xs[|xs| - 1]];
      Insert(x, xs[..|xs| - 1]) + [xs[|xs| - 1]]
  }

  /** Python's stable `sorted` by `segment_index`, as insertion of each entry in turn. */
  function SortByIndex(xs: seq<AudioPath>): (r: seq<AudioPath>)
    ensures multiset(r) == multiset(xs)
    ensures |r| == |xs|
  {
    if |xs| == 0 then []
    else
      assert xs == xs[..|xs| - 1] + [xs[|xs| - 1]];
      Insert(xs[|xs| - 1], SortByIndex(xs[..|xs| - 1]))
  }

  lemma {:induction false} InsertSorted(x: AudioPath, xs: seq<AudioPath>)
    requires SortedByIndex(xs)
    ensures SortedByIndex(Insert(x, xs))
    decreases |xs|
  {
    if |xs| > 0 && xs[|xs| - 1].segmentIndex > x.segmentIndex {
      var init, last := xs[..|xs| - 1], xs[|xs| - 1];
      InsertSorted(x, init);
      var r := Insert(x, init);
      forall k | 0 <= k < |r|
        ensures r[k].segmentIndex <= last.segmentIndex
      {
        assert r[k] in multiset(r);
        if r[k] != x {
          assert r[k] in multiset(init);
          var j :| 0 <= j < |init| && init[j] == r[k];
          assert xs[j] == r[k];
        }
      }
    }
  }

  /** The sorted list is in ascending index order and holds exactly the given entries. */
  lemma {:induction false} SortByIndexSorted(xs: seq<AudioPath>)
    ensures SortedByIndex(SortByIndex(xs))
    ensures multiset(SortByIndex(xs)) == multiset(xs)
    decreases |xs|
  {
    if |xs| > 0 {
      SortByIndexSorted(xs[..|xs| - 1]);
      InsertSorted(xs[|xs| - 1], SortByIndex(xs[..|xs| - 1]));
    }
  }

  /** Entries already in index order are left as they are. */
  lemma {:induction false} SortedUnchanged(xs: seq<AudioPath>)
    requires SortedByIndex(xs)
    ensures SortByIndex(xs) == xs
    decreases |xs|
  {
    if |xs| > 0 {
      SortedPrefix(xs);
      var init, last := xs[..|xs| - 1], xs[|xs| - 1];
      SortedUnchanged(init);
      assert |init| == 0 || init[|init| - 1].segmentIndex <= last.segmentIndex;
      SortedLast(init, last);
      assert xs == init + [last];
    }
  }

  lemma SortedPrefix(xs: seq<AudioPath>)
    requires SortedByIndex(xs) && |xs| > 0
    ensures SortedByIndex(xs[..|xs| - 1])
  {
    var init := xs[..|xs| - 1];
    forall i, j | 0 <= i < j < |init|
      ensures init[i].segmentIndex <= init[j].segmentIndex
    {
      assert init[i] == xs[i] && init[j] == xs[j];
    }
  }

  /** Appending an entry not below the last one to a list sorting leaves alone gives such a list. */
  lemma SortedLast(init: seq<AudioPath>, last: AudioPath)
    requires |init| == 0 || init[|init| - 1].segmentIndex <= last.segmentIndex
    requires SortByIndex(init) == init
    ensures SortByIndex(init + [last]) == init + [last]
  {
    SortByIndexSnoc(init, last);
    InsertAtEnd(last, init);
  }

  lemma SortByIndexSnoc(init: seq<AudioPath>, last: AudioPath)
    ensures SortByIndex(init + [last]) == Insert(last, SortByIndex(init))
  {
    var xs := init + [last];
    assert xs[..|xs| - 1] == init && xs[|xs| - 1] == last;
  }

  /** An entry whose index is not below the last one's is appended. */
  lemma InsertAtEnd(x: AudioPath, xs: seq<AudioPath>)
    requires |xs| == 0 || xs[|xs| - 1].segmentIndex <= x.segmentIndex
    ensures Insert(x, xs) == xs + [x]
  {
  }

  // ---------------------------------------------------------------------------
  // Reading the segment files that exist
  // ---------------------------------------------------------------------------

  /** The entries whose file exists, in order. */
  function Present(xs: seq<AudioPath>, dir: string, files: Files): (r: seq<AudioPath>)
    ensures |r| <= |xs|
  {
    if |xs| == 0 then []
    else
      var last := xs[|xs| - 1];
      Present(xs[..|xs| - 1], dir, files) + (if PathJoin(dir, last.path) in files then [last] else [])
  }

  /** An entry is kept exactly when it is listed and its file exists. */
  lemma {:induction false} PresentMembers(xs: seq<AudioPath>, dir: string, files: Files)
    ensures forall p :: p in Present(xs, dir, files) <==> p in xs && PathJoin(dir, p.path) in files
    decreases |xs|
  {
    if |xs| > 0 {
      var init := xs[..|xs| - 1];
      PresentMembers(init, dir, files);
      assert xs == init + [xs[|xs| - 1]];
    }
  }

  /** The contents of the files that exist, in order. */
  function Reads(xs: seq<AudioPath>, dir: string, files: Files): (r: seq<Audio>)
  {
    if |xs| == 0 then []
    else
      var last := xs[|xs| - 1];
      var f := PathJoin(dir, last.path);
      Reads(xs[..|xs| - 1], dir, files) + (if f in files then [files[f]] else [])
  }

  /** `np.concatenate` / appending audio segments. */
  function Flatten(segs: seq<Audio>): Audio
  {
    if |segs| == 0 then [] else Flatten(segs[..|segs| - 1]) + segs[|segs| - 1]
  }

  lemma FlattenSnoc(segs: seq<Audio>, a: Audio)
    ensures Flatten(segs + [a]) == Flatten(segs) + a
  {
    assert (segs + [a])[..|segs|] == segs;
  }

  /** One file is read per present entry. */
  lemma {:induction false} ReadsLength(xs: seq<AudioPath>, dir: string, files: Files)
    ensures |Reads(xs, dir, files)| == |Present(xs, dir, files)|
    decreases |xs|
  {
    if |xs| > 0 {
      ReadsLength(xs[..|xs| - 1], dir, files);
    }
  }

  /** What is read is the files of the present entries, one per entry, in order. */
  lemma {:induction false} ReadsOfPresent(xs: seq<AudioPath>, dir: string, files: Files)
    ensures |Reads(xs, dir, files)| == |Present(xs, dir, files)|
    ensures forall i :: 0 <= i < |Present(xs, dir, files)| ==>
      PathJoin(dir, Present(xs, dir, files)[i].path) in files
      && Reads(xs, dir, files)[i] == files[PathJoin(dir, Present(xs, dir, files)[i].path)]
    decreases |xs|
  {
    ReadsLength(xs, dir, files);
    if |xs| > 0 {
      ReadsOfPresent(xs[..|xs| - 1], dir, files);
    }
  }

  /** Every index of `xs` is at most `v`. */
  predicate IndexAtMost(xs: seq<AudioPath>, v: int)
  {
    forall i :: 0 <= i < |xs| ==> xs[i].segmentIndex <= v
  }

  lemma {:induction false} PresentAtMost(xs: seq<AudioPath>, v: int, dir: string, files: Files)
    requires IndexAtMost(xs, v)
    ensures IndexAtMost(Present(xs, dir, files), v)
    decreases |xs|
  {
    if |xs| > 0 {
      PresentAtMost(xs[..|xs| - 1], v, dir, files);
    }
  }

  /** When every listed file exists, each one is read, in order. */
  lemma {:induction false} ReadsAll(xs: seq<AudioPath>, dir: string, files: Files)
    requires forall k :: 0 <= k < |xs| ==> PathJoin(dir, xs[k].path) in files
    ensures |Reads(xs, dir, files)| == |xs|
    ensures forall k :: 0 <= k < |xs| ==> Reads(xs, dir, files)[k] == files[PathJoin(dir, xs[k].path)]
    decreases |xs|
  {
    if |xs| > 0 {
      ReadsAll(xs[..|xs| - 1], dir, files);
    }
  }

  /** Keeping the entries whose file exists keeps the index order. */
  lemma {:induction false} PresentSorted(xs: seq<AudioPath>, dir: string, files: Files)
    requires SortedByIndex(xs)
    ensures SortedByIndex(Present(xs, dir, files))
    decreases |xs|
  {
    if |xs| > 0 {
      var init, last := xs[..|xs| - 1], xs[|xs| - 1];
      PresentSorted(init, dir, files);
      PresentAtMost(init, last.segmentIndex, dir, files);
    }
  }

  lemma PresentStep(xs: seq<AudioPath>, i: nat, dir: string, files: Files)
    requires i < |xs|
    ensures var f := PathJoin(dir, xs[i].path);
      && Present(xs[..i + 1], dir, files) == Present(xs[..i], dir, files) + (if f in files then [xs[i]] else [])
      && Reads(xs[..i + 1], dir, files) == Reads(xs[..i], dir, files) + (if f in files then [files[f]] else [])
  {
    assert xs[..i + 1][..i] == xs[..i];
  }

  // ---------------------------------------------------------------------------
  // merge_audio_segments
  // ---------------------------------------------------------------------------

  /** `f"merged_{message_id}.wav"`. */
  function MergedName(messageId: string): string
  {
    "merged_" + messageId + ".wav"
  }

  /** `audio_paths[0].get("sample_rate", 24000)`. */
  function FirstRate(paths: seq<AudioPath>): Value
    requires |paths| > 0
  {
    paths[0].sampleRate.GetOr(JNum(24000))
  }

  /** The merged file to write: where, what, and at which sample rate. */
  datatype Merge = Merge(path: string, audio: Audio, rate: Value)

  /**
   * What `merge_audio_segments` writes, if anything: nothing for an empty
   * list, when no segment file exists, or when the sample rate is not a
   * positive integer (writing the file raises); otherwise the existing
   * segment files, in index order, joined into `merged_{id}.wav` in the
   * storage directory.
   */
  function PlanMerge(messageId: string, paths: seq<AudioPath>, dir: string, files: Files): Option<Merge>
  {
    if |paths| == 0 then None
    else
      var segs := Reads(SortByIndex(paths), dir, files);
      var rate := FirstRate(paths);
      if |segs| == 0 || !(rate.JNum? && rate.n > 0) then None
      else Some(Merge(PathJoin(dir, MergedName(messageId)), Flatten(segs), rate))
  }

  /** The merged-audio dict handed to `save_merged_audio`; `seconds` is the floating-point duration. */
  function MergedRecord(messageId: string, m: Merge, count: nat, seconds: (nat, Value) -> Value): map<string, Value>
  {
    map["message_id" := JStr(messageId), "path" := JStr(m.path), "sample_rate" := m.rate,
        "duration" := seconds(|m.audio|, m.rate), "segments_count" := JNum(count)]
  }

  /** The tables after a merge is written: the audio path is updated, then the merged record saved. */
  function RecordMerge(t: Tables, messageId: string, m: Merge, count: nat, seconds: (nat, Value) -> Value): Tables
  {
    SaveMerged(UpdateAudioPath(t, messageId, m.path).0, MergedRecord(messageId, m, count, seconds)).0
  }

  /** The effect of `merge_audio_segments` (assistant.py:154-213) on the files and the tables. */
  function MergeEffect(messageId: string, paths: seq<AudioPath>, dir: string, files: Files,
                       seconds: (nat, Value) -> Value, t: Tables): (Files, Tables)
  {
    match PlanMerge(messageId, paths, dir, files)
    case None => (files, t)
    case Some(m) => (files[m.path := m.audio], RecordMerge(t, messageId, m, |paths|, seconds))
  }

  /** An empty segment list changes nothing. */
  lemma MergeEmptyDoesNothing(messageId: string, dir: string, files: Files, seconds: (nat, Value) -> Value, t: Tables)
    ensures MergeEffect(messageId, [], dir, files, seconds, t) == (files, t)
  {
  }

  /** Sorting keeps exactly the listed entries. */
  lemma SortKeepsMembers(xs: seq<AudioPath>)
    ensures forall p :: p in SortByIndex(xs) <==> p in xs
  {
    var s := SortByIndex(xs);
    forall p
      ensures p in s <==> p in xs
    {
      assert p in s <==> p in multiset(s);
      assert p in xs <==> p in multiset(xs);
    }
  }

  /** When no segment file exists, nothing is written and the tables are untouched. */
  lemma MergeWithoutFilesDoesNothing(messageId: string, paths: seq<AudioPath>, dir: string, files: Files,
                                     seconds: (nat, Value) -> Value, t: Tables)
    requires forall p :: p in paths ==> PathJoin(dir, p.path) !in files
    ensures MergeEffect(messageId, paths, dir, files, seconds, t) == (files, t)
  {
    if |paths| > 0 {
      var s := SortByIndex(paths);
      ReadsOfPresent(s, dir, files);
      PresentMembers(s, dir, files);
      SortKeepsMembers(paths);
    }
  }

  /**
   * A merge writes `merged_{id}.wav` in the storage directory, holding the
   * existing segment files' samples in ascending index order; every listed
   * entry whose file exists is used, and no other. The rate is the first
   * entry's as given (not as sorted).
   */
  lemma MergeWritesSortedSegments(messageId: string, paths: seq<AudioPath>, dir: string, files: Files)
    requires PlanMerge(messageId, paths, dir, files).Some?
    ensures var m := PlanMerge(messageId, paths, dir, files).value;
      var used := Present(SortByIndex(paths), dir, files);
      && |paths| > 0 && |used| > 0
      && SortedByIndex(used)
      && (forall p :: p in used <==> p in paths && PathJoin(dir, p.path) in files)
      && m.path == PathJoin(dir, MergedName(messageId))
      && m.rate == FirstRate(paths)
      && var segs := Reads(SortByIndex(paths), dir, files);
         m.audio == Flatten(segs) && |segs| == |used|
         && forall i :: 0 <= i < |used| ==>
              PathJoin(dir, used[i].path) in files && segs[i] == files[PathJoin(dir, used[i].path)]
  {
    var s := SortByIndex(paths);
    SortByIndexSorted(paths);
    PresentSorted(s, dir, files);
    ReadsOfPresent(s, dir, files);
    PresentMembers(s, dir, files);
    SortKeepsMembers(paths);
  }

  /**
   * When a merge happens, the new files differ from the old only at the
   * merged path; and when the message had no merged record yet, the record
   * saved names the merged file and its rate and counts every listed entry,
   * including those whose file was missing.
   */
  lemma MergeRecordsAllEntries(messageId: string, paths: seq<AudioPath>, dir: string, files: Files,
                               seconds: (nat, Value) -> Value, t: Tables)
    requires ValidTables(t)
    requires PlanMerge(messageId, paths, dir, files).Some?
    requires forall i :: 0 <= i < |t.merged| ==> t.merged[i].messageId != JStr(messageId)
    ensures var m := PlanMerge(messageId, paths, dir, files).value;
      var (f', t') := MergeEffect(messageId, paths, dir, files, seconds, t);
      && f' == files[m.path := m.audio]
      && |t'.merged| == |t.merged| + 1
      && t'.merged[|t.merged|].messageId == JStr(messageId)
      && t'.merged[|t.merged|].path == JStr(m.path)
      && t'.merged[|t.merged|].sampleRate == m.rate
      && t'.merged[|t.merged|].segmentsCount == JNum(|paths|)
  {
    var m := PlanMerge(messageId, paths, dir, files).value;
    RecordMergeAppends(t, messageId, m, |paths|, seconds);
  }

  /** Recording a merge for a message without a merged record appends exactly one record. */
  lemma RecordMergeAppends(t: Tables, messageId: string, m: Merge, count: nat, seconds: (nat, Value) -> Value)
    requires ValidTables(t)
    requires forall i :: 0 <= i < |t.merged| ==> t.merged[i].messageId != JStr(messageId)
    ensures var t' := RecordMerge(t, messageId, m, count, seconds);
      t'.merged == t.merged + [MergedRow(JStr(messageId), JStr(m.path), ColumnValue(m.rate, JNum(24000)),
                                         seconds(|m.audio|, m.rate), JNum(count))]
  {
    UpdateAudioPathOneRow(t, messageId, m.path);
    var t1 := UpdateAudioPath(t, messageId, m.path).0;
    SaveMergedInsertOnly(t1, MergedRecord(messageId, m, count, seconds));
  }

  // ---------------------------------------------------------------------------
  // get_message_audio
  // ---------------------------------------------------------------------------

  /** The `merged_audio` entry of a stored message. */
  datatype MergedInfo = MergedInfo(mergedPath: string, sampleRate: Option<Value>)

  /** The audio-related part of a stored message dict. */
  datatype StoredAudio = StoredAudio(merged: Option<MergedInfo>, segments: seq<AudioPath>)

  /** The reply of `get_message_audio`; its type is always "audio" and its format "base64". */
  datatype AudioReply = AudioReply(messageId: string, audio: Audio, sampleRate: Value, isMerged: bool)

  /** `f"temp_{message_id}.wav"`, exported and then removed. */
  function TempName(messageId: string): string
  {
    "temp_" + messageId + ".wav"
  }

  /** `sample_rate or 24000`. */
  function OrDefaultRate(v: Value): Value
  {
    if Truthy(v) then v else JNum(24000)
  }

  /**
   * The on-demand join: the existing segment files in index order and the
   * first existing segment's rate, or None when no segment file exists.
   */
  function OnDemand(segments: seq<AudioPath>, dir: string, files: Files): Option<(Audio, Value)>
  {
    var s := SortByIndex(segments);
    var present := Present(s, dir, files);
    if |present| == 0 then None
    else Some((Flatten(Reads(s, dir, files)), present[0].sampleRate.GetOr(JNum(24000))))
  }

  /**
   * The state of the join loop: nothing joined before the first existing
   * file, then the joined samples of the files read so far and the first
   * one's rate.
   */
  predicate Joined(combined: Option<Audio>, rate: Value, present: seq<AudioPath>, segs: seq<Audio>)
  {
    && |segs| == |present|
    && (combined.None? <==> |present| == 0)
    && (|present| > 0 ==> combined.value == Flatten(segs) && rate == present[0].sampleRate.GetOr(JNum(24000)))
  }

  /** The merged file of a message, when recorded and present. */
  predicate MergedAvailable(m: StoredAudio, dir: string, files: Files)
  {
    m.merged.Some? && PathJoin(dir, m.merged.value.mergedPath) in files
  }

  /**
   * `get_message_audio` (assistant.py:73-152): the reply and the files left
   * afterwards. The merged file is served when recorded and present;
   * otherwise the existing segment files are joined in index order, through
   * a temporary file that is removed again.
   */
  function AudioFor(messageId: string, m: StoredAudio, dir: string, files: Files): (Option<AudioReply>, Files)
  {
    if MergedAvailable(m, dir, files) then
      var info := m.merged.value;
      (Some(AudioReply(messageId, files[PathJoin(dir, info.mergedPath)], info.sampleRate.GetOr(JNum(24000)), true)), files)
    else if |m.segments| == 0 then (None, files)
    else
      match OnDemand(m.segments, dir, files)
      case None => (None, files)
      case Some((audio, rate)) =>
        (Some(AudioReply(messageId, audio, OrDefaultRate(rate), true)), files - {PathJoin(dir, TempName(messageId))})
  }

  /** A recorded merged file that exists is served as it is, with its recorded rate. */
  lemma MergedFilePreferred(messageId: string, m: StoredAudio, dir: string, files: Files)
    requires MergedAvailable(m, dir, files)
    ensures var (r, f) := AudioFor(messageId, m, dir, files);
      && f == files && r.Some? && r.value.isMerged
      && r.value.audio == files[PathJoin(dir, m.merged.value.mergedPath)]
      && r.value.sampleRate == m.merged.value.sampleRate.GetOr(JNum(24000))
  {
  }

  /** The on-demand join finds nothing exactly when no listed segment's file exists. */
  lemma OnDemandNoneIff(segments: seq<AudioPath>, dir: string, files: Files)
    ensures OnDemand(segments, dir, files).None? <==> forall p :: p in segments ==> PathJoin(dir, p.path) !in files
  {
    var s := SortByIndex(segments);
    PresentMembers(s, dir, files);
    SortKeepsMembers(segments);
    var present := Present(s, dir, files);
    if |present| > 0 {
      assert present[0] in present;
    }
  }

  /** There is no reply exactly when no merged file is available and no segment file exists. */
  lemma NoAudioIff(messageId: string, m: StoredAudio, dir: string, files: Files)
    ensures AudioFor(messageId, m, dir, files).0.None? <==>
      !MergedAvailable(m, dir, files) && forall p :: p in m.segments ==> PathJoin(dir, p.path) !in files
  {
    OnDemandNoneIff(m.segments, dir, files);
  }

  /**
   * Assembled on demand, the reply joins the existing segment files in
   * ascending index order, takes the first existing segment's rate (24000
   * when absent or falsy), is marked merged all the same, and leaves no
   * temporary file behind.
   */
  lemma OnDemandInIndexOrder(messageId: string, m: StoredAudio, dir: string, files: Files)
    requires !MergedAvailable(m, dir, files)
    requires AudioFor(messageId, m, dir, files).0.Some?
    ensures var (r, f) := AudioFor(messageId, m, dir, files);
      var used := Present(SortByIndex(m.segments), dir, files);
      && |used| > 0 && SortedByIndex(used)
      && r.value.isMerged
      && r.value.sampleRate == OrDefaultRate(used[0].sampleRate.GetOr(JNum(24000)))
      && PathJoin(dir, TempName(messageId)) !in f
      && var segs := Reads(SortByIndex(m.segments), dir, files);
         r.value.audio == Flatten(segs) && |segs| == |used|
         && forall i :: 0 <= i < |used| ==>
              PathJoin(dir, used[i].path) in files && segs[i] == files[PathJoin(dir, used[i].path)]
  {
    var s := SortByIndex(m.segments);
    SortByIndexSorted(m.segments);
    PresentSorted(s, dir, files);
    ReadsOfPresent(s, dir, files);
  }

  // ---------------------------------------------------------------------------
  // update_message_audio
  // ---------------------------------------------------------------------------

  /** The `audio_info` dict `update_message_audio` builds (assistant.py:224-241). */
  function AudioInfo(audioPaths: Value, mergedPath: Value, sampleRate: Value): (r: map<string, Value>)
    ensures "path" in r <==> Truthy(mergedPath) || audioPaths.JStr?
    ensures "path" in r ==> r["path"] == if audioPaths.JStr? then audioPaths else mergedPath
    ensures "sample_rate" in r <==> Truthy(sampleRate)
    ensures "sample_rate" in r ==> r["sample_rate"] == sampleRate
    ensures "segments" in r <==> audioPaths.JArr?
    ensures "segments" in r ==> r["segments"] == audioPaths
    ensures r.Keys <= {"path", "sample_rate", "segments"}
  {
    var withPath: map<string, Value> := if Truthy(mergedPath) then map["path" := mergedPath] else map[];
    var withRate := if Truthy(sampleRate) then withPath["sample_rate" := sampleRate] else withPath;
    if audioPaths.JArr? then withRate["segments" := audioPaths]
    else if audioPaths.JStr? then withRate["path" := audioPaths]
    else withRate
  }

  // ---------------------------------------------------------------------------
  // The assistant object
  // ---------------------------------------------------------------------------

  class Assistant {
    const db: DatabaseService
    /** `config.AUDIO_STORAGE_DIR`. */
    const audioDir: string

    constructor(db: DatabaseService, audioDir: string)
      ensures this.db == db && this.audioDir == audioDir
    {
      this.db := db;
      this.audioDir := audioDir;
    }

    /** Reads the existing files of `xs` in order, as both loops of the source do. */
    static method ReadSegments(xs: seq<AudioPath>, dir: string, files: Files) returns (segs: seq<Audio>)
      ensures segs == Reads(xs, dir, files)
    {
      segs := [];
      for i := 0 to |xs|
        invariant segs == Reads(xs[..i], dir, files)
      {
        PresentStep(xs, i, dir, files);
        var f := PathJoin(dir, xs[i].path);
        if f in files {
          segs := segs + [files[f]];
        }
      }
      assert xs[..|xs|] == xs;
    }

    /** `merge_audio_segments`: the files written are returned; the tables change through the ledger. */
    method MergeAudioSegments(messageId: string, paths: seq<AudioPath>, storageDir: string, files: Files,
                              seconds: (nat, Value) -> Value)
      returns (written: Files)
      requires db.Valid()
      modifies db
      ensures db.Valid()
      ensures (written, db.State()) == MergeEffect(messageId, paths, storageDir, files, seconds, old(db.State()))
    {
      if |paths| == 0 {
        return files;
      }
      var segs := ReadSegments(SortByIndex(paths), storageDir, files);
      var rate := FirstRate(paths);
      if |segs| == 0 || !(rate.JNum? && rate.n > 0) {
        return files;
      }
      var m := Merge(PathJoin(storageDir, MergedName(messageId)), Flatten(segs), rate);
      assert PlanMerge(messageId, paths, storageDir, files) == Some(m);
      written := files[m.path := m.audio];
      RecordMergeInDb(messageId, m, |paths|, seconds);
    }

    /** The two writes after a merge: the message's audio path, then the merged record. */
    method RecordMergeInDb(messageId: string, m: Merge, count: nat, seconds: (nat, Value) -> Value)
      requires db.Valid()
      modifies db
      ensures db.Valid()
      ensures db.State() == RecordMerge(old(db.State()), messageId, m, count, seconds)
    {
      var updated := db.UpdateMessageAudioPath(messageId, m.path);
      var saved := db.SaveMergedAudio(MergedRecord(messageId, m, count, seconds));
    }

    /** `get_message_audio`: the reply and the files left afterwards. */
    method GetMessageAudio(messageId: string, m: StoredAudio, files: Files)
      returns (r: Option<AudioReply>, left: Files)
      ensures (r, left) == AudioFor(messageId, m, audioDir, files)
    {
      if MergedAvailable(m, audioDir, files) {
        var info := m.merged.value;
        return Some(AudioReply(messageId, files[PathJoin(audioDir, info.mergedPath)],
                               info.sampleRate.GetOr(JNum(24000)), true)), files;
      }
      if |m.segments| == 0 {
        return None, files;
      }
      var joined := JoinSegments(m.segments, audioDir, files);
      if joined.None? {
        return None, files;
      }
      var (combined, rate) := joined.value;
      r := Some(AudioReply(messageId, combined, OrDefaultRate(rate), true));
      left := files - {PathJoin(audioDir, TempName(messageId))};
    }

    /** One existing segment file appended to the join; the first one also fixes the rate. */
    static method AddSegment(combined: Option<Audio>, rate: Value, p: AudioPath, audio: Audio,
                             ghost present: seq<AudioPath>, ghost segs: seq<Audio>)
      returns (combined': Option<Audio>, rate': Value)
      requires Joined(combined, rate, present, segs)
      ensures Joined(combined', rate', present + [p], segs + [audio])
    {
      FlattenSnoc(segs, audio);
      if combined.None? {
        combined', rate' := Some(audio), p.sampleRate.GetOr(JNum(24000));
      } else {
        combined', rate' := Some(combined.value + audio), rate;
      }
    }

    /** The fallback loop of `get_message_audio`: join the existing segment files in index order. */
    static method JoinSegments(segments: seq<AudioPath>, dir: string, files: Files)
      returns (joined: Option<(Audio, Value)>)
      ensures joined == OnDemand(segments, dir, files)
    {
      var combined, rate := JoinSorted(SortByIndex(segments), dir, files);
      if combined.None? {
        return None;
      }
      return Some((combined.value, rate));
    }

    /** The loop over the sorted entries, skipping those whose file is missing. */
    static method JoinSorted(sorted: seq<AudioPath>, dir: string, files: Files)
      returns (combined: Option<Audio>, rate: Value)
      ensures Joined(combined, rate, Present(sorted, dir, files), Reads(sorted, dir, files))
    {
      combined, rate := None, JNull;
      ghost var present: seq<AudioPath> := [];
      ghost var segs: seq<Audio> := [];
      for i := 0 to |sorted|
        invariant present == Present(sorted[..i], dir, files) && segs == Reads(sorted[..i], dir, files)
        invariant Joined(combined, rate, present, segs)
      {
        PresentStep(sorted, i, dir, files);
        var f := PathJoin(dir, sorted[i].path);
        if f in files {
          combined, rate := AddSegment(combined, rate, sorted[i], files[f], present, segs);
          present := present + [sorted[i]];
          segs := segs + [files[f]];
        }
      }
      assert sorted[..|sorted|] == sorted;
    }
  }
}
