/**
 * back-end/rebuild_db.py: the backup name of `backup_database` and the row
 * conversion of `migrate_data`, which reads a legacy key/value `messages`
 * table and writes the rows into the ORM tables in one session.
 */
module RebuildDb {
  import opened Wrappers
  import opened Json
  import opened Strs
  import MessageModel
  import Database
  import opened NewSchema

  /** `f"{db_path}.backup_{timestamp}"`; `stamp` is the clock formatted as `%Y%m%d_%H%M%S`. */
  function BackupPath(dbPath: string, stamp: string): string
  {
    dbPath + ".backup_" + stamp
  }

  /**
   * `backup_database` (rebuild_db.py:29-46): False when the file is missing
   * or the copy raises, else the backup path.
   */
  function BackupDatabase(dbPath: string, found: bool, stamp: string, copied: bool): (r: Option<string>)
    ensures r.Some? <==> found && copied
    ensures r.Some? ==> r.value == BackupPath(dbPath, stamp)
  {
    if !found then None
    else if copied then Some(BackupPath(dbPath, stamp))
    else None
  }

  /**
   * A backup sits next to the database, named after it, and backups taken at
   * different times never overwrite each other.
   */
  lemma BackupPathsDistinct(dbPath: string, s1: string, s2: string)
    ensures StartsWith(BackupPath(dbPath, s1), dbPath + ".backup_")
    ensures s1 != s2 ==> BackupPath(dbPath, s1) != BackupPath(dbPath, s2)
  {
    var pre := dbPath + ".backup_";
    assert BackupPath(dbPath, s1)[..|pre|] == pre;
    assert BackupPath(dbPath, s1)[|pre|..] == s1;
    assert BackupPath(dbPath, s2)[|pre|..] == s2;
  }

  // ---------------------------------------------------------------------------
  // Keys
  // ---------------------------------------------------------------------------

  /** `key.split('-', 1)`. */
  function SplitOnce(key: string): (parts: seq<string>)
    ensures 1 <= |parts| <= 2
    ensures |parts| == 1 <==> '-' !in key
    ensures |parts| == 1 ==> parts[0] == key
    ensures |parts| == 2 ==> parts[0] + "-" + parts[1] == key && '-' !in parts[0]
  {
    var i := Find(key, "-");
    if i < 0 then
      NoDash(key);
      [key]
    else
      FirstDash(key, i);
      [key[..i], key[i + 1..]]
  }

  lemma NoDash(key: string)
    requires Find(key, "-") < 0
    ensures '-' !in key
  {
    forall j | 0 <= j < |key|
      ensures key[j] != '-'
    {
      assert !OccursAt(key, "-", j);
      assert key[j..j + 1] == [key[j]];
    }
  }

  lemma FirstDash(key: string, i: int)
    requires i == Find(key, "-") && i >= 0
    ensures i < |key| && key[i] == '-' && key[..i] + "-" + key[i + 1..] == key && '-' !in key[..i]
  {
    assert key[i..i + 1] == "-";
    forall j | 0 <= j < i
      ensures key[..i][j] != '-'
    {
      assert !OccursAt(key, "-", j);
      assert key[j..j + 1] == [key[j]];
    }
  }

  /** The search for `-` finds one exactly when the key has one. */
  lemma DashFound(key: string)
    ensures '-' in key <==> Find(key, "-") >= 0
  {
    if Find(key, "-") < 0 {
      NoDash(key);
    } else {
      FirstDash(key, Find(key, "-"));
    }
  }

  /**
   * The role and `message_id` of a legacy key (rebuild_db.py:107-109): split
   * at the first `-`; a key without one gives role 'unknown' and the whole
   * key as id.
   */
  function SplitKey(key: string): (string, string)
  {
    var parts := SplitOnce(key);
    (if |parts| > 1 then parts[0] else "unknown", if |parts| > 1 then parts[1] else key)
  }

  /**
   * Round trip with the key format `{role}-{message_id}` of the chat
   * database: a role without `-` and any id come back unchanged, so a legacy
   * key is split back into what built it.
   */
  lemma SplitKeyOfKey(role: string, messageId: string)
    requires '-' !in role
    ensures SplitKey(Database.KeyOf(role, messageId)) == (role, messageId)
  {
    var key := Database.KeyOf(role, messageId);
    FindFirstSep(role, '-', messageId);
    assert key == role + ['-'] + messageId;
    assert ['-'] == "-";
  }

  /** The other direction: a key with a `-` is rebuilt from its parts. */
  lemma KeyOfSplitKey(key: string)
    ensures '-' in key ==> Database.KeyOf(SplitKey(key).0, SplitKey(key).1) == key && '-' !in SplitKey(key).0
    ensures '-' !in key ==> SplitKey(key) == ("unknown", key)
  {
  }

  // ---------------------------------------------------------------------------
  // Rows
  // ---------------------------------------------------------------------------

  /** A row of the legacy table; either column may be NULL. */
  datatype LegacyRow = LegacyRow(key: Option<string>, value: Option<string>)

  /**
   * The oracles of a migration: `json.loads`, `json.dumps`, whether
   * `datetime.fromisoformat` accepts a text, and the clock's time.
   */
  datatype Env = Env(parse: MessageModel.Parser, dumps: Database.Dumper, isIso: string -> bool, now: string)

  /**
   * `json.loads(row['value'])`, or the raw column when that raises: the raw
   * text when it is not JSON, None for NULL.
   */
  function LegacyValue(raw: Option<string>, parse: MessageModel.Parser): Value
  {
    match raw
    case None => JNull
    case Some(s) =>
      match parse(s)
      case Some(v) => v
      case None => JStr(s)
  }

  /** `value.get('content', {})` for a dict, else the value itself (rebuild_db.py:111). */
  function ContentOf(value: Value): Value
  {
    if value.JObj? then Field(value.fields, "content", JObj(map[])) else value
  }

  /**
   * The timestamp (rebuild_db.py:112, 120): the parsed `timestamp` of a dict
   * when truthy, else the clock. None when `fromisoformat` raises.
   */
  function StampOf(value: Value, env: Env): Option<string>
  {
    var ts := if value.JObj? then Field(value.fields, "timestamp", JNull) else JNull;
    if !Truthy(ts) then Some(env.now)
    else if ts.JStr? && env.isIso(ts.s) then Some(ts.s)
    else None
  }

  /** One pass of the row loop (rebuild_db.py:99-146); None when the row raises. */
  function ConvertRow(t: Tables, row: LegacyRow, env: Env): Option<Tables>
  {
    if row.key.None? then None
    else
      var key := row.key.value;
      var value := LegacyValue(row.value, env.parse);
      var (role, messageId) := SplitKey(key);
      match StampOf(value, env)
      case None => None
      case Some(ts) =>
        AddWithAudio(t, key, role, messageId, JStr(Database.Encode(ContentOf(value), env.dumps)), JStr(ts), value)
  }

  /** The session after the first rows; None once a row has raised. */
  function ConvertRows(rows: seq<LegacyRow>, env: Env): Option<Tables>
  {
    if |rows| == 0 then Some(Empty)
    else
      match ConvertRows(rows[..|rows| - 1], env)
      case None => None
      case Some(t) => ConvertRow(t, rows[|rows| - 1], env)
  }

  /** Whether `PRAGMA table_info(messages)` lists both `key` and `value`. */
  predicate KeyValueTable(columns: seq<string>)
  {
    "key" in columns && "value" in columns
  }

  /**
   * `migrate_data` (rebuild_db.py:68-166) as intended: the committed tables
   * and the result. Nothing is committed when the old database is missing,
   * the table has another layout, or any row raises.
   */
  function MigrateSpec(oldExists: bool, columns: seq<string>, rows: seq<LegacyRow>, env: Env): (Tables, bool)
  {
    if !oldExists || !KeyValueTable(columns) then (Empty, false)
    else
      match ConvertRows(rows, env)
      case None => (Empty, false)
      case Some(t) => (t, true)
  }

  /**
   * `migrate_data` as intended, over the old table's columns and rows: a
   * session on the new database, the row loop, and a commit at the end.
   */
  method MigrateData(oldExists: bool, columns: seq<string>, rows: seq<LegacyRow>, env: Env)
    returns (committed: Tables, ok: bool)
    ensures (committed, ok) == MigrateSpec(oldExists, columns, rows, env)
  {
    if !oldExists {
      return Empty, false;
    }
    if !("key" in columns && "value" in columns) {
      return Empty, false;
    }
    var db := new Session();
    for i := 0 to |rows|
      invariant ConvertRows(rows[..i], env) == Some(db.State())
    {
      assert rows[..i + 1][..i] == rows[..i];
      var done := MigrateRow(db, rows[i], env);
      if !done {
        RowsFailFrom(rows, i, env);
        return Empty, false;
      }
    }
    assert rows[..|rows|] == rows;
    return db.State(), true;
  }

  /** The body of the row loop: parse, build the message, flush, add its audio rows. */
  method MigrateRow(db: Session, row: LegacyRow, env: Env) returns (ok: bool)
    modifies db
    ensures ok <==> ConvertRow(old(db.State()), row, env).Some?
    ensures ok ==> Some(db.State()) == ConvertRow(old(db.State()), row, env)
  {
    if row.key.None? {
      return false;
    }
    var key := row.key.value;
    var value := LegacyValue(row.value, env.parse);
    var parts := SplitOnce(key);
    var role := if |parts| > 1 then parts[0] else "unknown";
    var messageId := if |parts| > 1 then parts[1] else key;
    var content := ContentOf(value);
    var stamp := StampOf(value, env);
    if stamp.None? {
      return false;
    }
    var stored := if !content.JStr? then env.dumps(content) else content.s;
    ok := db.AddAll(key, role, messageId, JStr(stored), JStr(stamp.value), value);
  }

  /** Once a row raises, the whole loop has raised. */
  lemma RowsFailFrom(rows: seq<LegacyRow>, i: nat, env: Env)
    requires i < |rows|
    requires ConvertRows(rows[..i], env).Some?
    requires ConvertRow(ConvertRows(rows[..i], env).value, rows[i], env).None?
    ensures ConvertRows(rows, env).None?
  {
    assert rows[..i + 1][..i] == rows[..i];
    RowsFailAfter(rows, i + 1, env);
  }

  lemma {:induction false} RowsFailAfter(rows: seq<LegacyRow>, n: nat, env: Env)
    requires n <= |rows| && ConvertRows(rows[..n], env).None?
    ensures ConvertRows(rows, env).None?
    decreases |rows| - n
  {
    if n < |rows| {
      assert rows[..n + 1][..n] == rows[..n];
      RowsFailAfter(rows, n + 1, env);
    } else {
      assert rows[..n] == rows;
    }
  }

  // ---------------------------------------------------------------------------
  // What a successful migration holds
  // ---------------------------------------------------------------------------

  /** The message row the loop builds from a legacy row, given its id and timestamp. */
  function RowFor(row: LegacyRow, id: nat, ts: string, env: Env): MessageRow
    requires row.key.Some?
  {
    var value := LegacyValue(row.value, env.parse);
    var (role, messageId) := SplitKey(row.key.value);
    MessageRow(id, row.key.value, role, messageId, JStr(Database.Encode(ContentOf(value), env.dumps)), JStr(ts))
  }

  /** Message `m` is what the loop builds from `row` as the `id`-th message. */
  predicate Migrates(m: MessageRow, row: LegacyRow, id: nat, env: Env)
  {
    && row.key.Some?
    && StampOf(LegacyValue(row.value, env.parse), env).Some?
    && m == RowFor(row, id, StampOf(LegacyValue(row.value, env.parse), env).value, env)
  }

  /** One message per legacy row, in order, the i-th built as message i+1. */
  predicate RowsMigrated(ms: seq<MessageRow>, rows: seq<LegacyRow>, env: Env)
  {
    |ms| == |rows| && forall i :: 0 <= i < |rows| ==> Migrates(ms[i], rows[i], i + 1, env)
  }

  lemma RowsMigratedSnoc(ms: seq<MessageRow>, rows: seq<LegacyRow>, m: MessageRow, row: LegacyRow, env: Env)
    requires RowsMigrated(ms, rows, env) && Migrates(m, row, |ms| + 1, env)
    ensures RowsMigrated(ms + [m], rows + [row], env)
  {
    forall i | 0 <= i < |rows| + 1
      ensures Migrates((ms + [m])[i], (rows + [row])[i], i + 1, env)
    {
      if i < |rows| {
        assert (ms + [m])[i] == ms[i] && (rows + [row])[i] == rows[i];
      }
    }
  }

  /**
   * After a successful run, the tables are linked and hold one message per
   * legacy row, in order: the i-th has id i+1, the row's key, the role and
   * id parsed from it, the encoded content and the row's timestamp.
   */
  lemma {:induction false} ConvertRowsMessages(rows: seq<LegacyRow>, env: Env)
    requires ConvertRows(rows, env).Some?
    ensures Linked(ConvertRows(rows, env).value)
    ensures RowsMigrated(ConvertRows(rows, env).value.messages, rows, env)
    decreases |rows|
  {
    if |rows| > 0 {
      var init, last := rows[..|rows| - 1], rows[|rows| - 1];
      ConvertRowsMessages(init, env);
      var t0 := ConvertRows(init, env).value;
      var t := ConvertRows(rows, env).value;
      assert ConvertRow(t0, last, env) == Some(t);
      LastRowAdded(t0, last, t, env);
      RowsMigratedSnoc(t0.messages, init, t.messages[|t0.messages|], last, env);
      assert init + [last] == rows;
    } else {
      EmptyLinked();
    }
  }

  lemma LastRowAdded(t: Tables, row: LegacyRow, t': Tables, env: Env)
    requires Linked(t)
    requires ConvertRow(t, row, env) == Some(t')
    ensures Linked(t')
    ensures t'.messages == t.messages + [t'.messages[|t.messages|]]
    ensures Migrates(t'.messages[|t.messages|], row, |t.messages| + 1, env)
  {
    var value := LegacyValue(row.value, env.parse);
    var (role, messageId) := SplitKey(row.key.value);
    var ts := StampOf(value, env).value;
    AddWithAudioLinked(t, row.key.value, role, messageId, JStr(Database.Encode(ContentOf(value), env.dumps)), JStr(ts), value);
  }

  /**
   * A run fails, committing nothing, exactly when the old database is
   * missing, the table has another layout, or some row raises; a duplicate
   * key is one such row.
   */
  lemma MigrateFailsCleanly(oldExists: bool, columns: seq<string>, rows: seq<LegacyRow>, env: Env)
    ensures var (t, ok) := MigrateSpec(oldExists, columns, rows, env);
      && (!ok <==> !oldExists || !KeyValueTable(columns) || ConvertRows(rows, env).None?)
      && (!ok ==> t == Empty)
  {
  }

  /**
   * The model takes the columns of back-end/models/database_models.py, whose
   * key column is unique, as the intended schema, so a successful run had no
   * NULL key and no two legacy rows with the same key: a duplicate key fails
   * the run. The `Message` of back-end/models/message.py, which rebuild_db.py
   * imports, has no such index.
   */
  lemma ConvertedKeysDistinct(rows: seq<LegacyRow>, env: Env)
    requires ConvertRows(rows, env).Some?
    ensures forall i :: 0 <= i < |rows| ==> rows[i].key.Some?
    ensures forall i, j :: 0 <= i < j < |rows| ==> rows[i].key != rows[j].key
  {
    ConvertRowsMessages(rows, env);
    var t := ConvertRows(rows, env).value;
    forall i | 0 <= i < |rows|
      ensures rows[i].key.Some?
    {
      assert Migrates(t.messages[i], rows[i], i + 1, env);
    }
    forall i, j | 0 <= i < j < |rows|
      ensures rows[i].key != rows[j].key
    {
      assert Migrates(t.messages[i], rows[i], i + 1, env) && Migrates(t.messages[j], rows[j], j + 1, env);
      assert t.messages[i].key == rows[i].key.value;
      assert t.messages[j].key == rows[j].key.value;
    }
  }

  // ---------------------------------------------------------------------------
  // The loop as written
  // ---------------------------------------------------------------------------

  /**
   * `migrate_data` as written: the rows are built with the classes of
   * back-end/models/message.py and back-end/models/audio.py, and
   * `Message(..., timestamp=...)` names a column that class does not have, so
   * the constructor raises on the first row and nothing is committed. Only
   * an empty legacy table reports success.
   */
  function MigrateAsWritten(oldExists: bool, columns: seq<string>, rows: seq<LegacyRow>): (Tables, bool)
  {
    if !oldExists || !KeyValueTable(columns) then (Empty, false)
    else if |rows| == 0 then (Empty, true)
    else (Empty, false)
  }

  /**
   * The discrepancy: a single well-formed legacy row, which the intended
   * loop migrates into one message, makes the loop as written fail.
   */
  lemma RowsLostAsWritten(env: Env)
    requires env.parse("\"hi\"") == Some(JStr("hi"))
    ensures var rows := [LegacyRow(Some("user-1"), Some("\"hi\""))];
      && MigrateAsWritten(true, ["key", "value"], rows) == (Empty, false)
      && MigrateSpec(true, ["key", "value"], rows, env).1
      && MigrateSpec(true, ["key", "value"], rows, env).0.messages
           == [MessageRow(1, "user-1", "user", "1", JStr("hi"), JStr(env.now))]
  {
    var rows := [LegacyRow(Some("user-1"), Some("\"hi\""))];
    var row := rows[0];
    SplitKeyOfKey("user", "1");
    assert Database.KeyOf("user", "1") == "user-1";
    assert LegacyValue(row.value, env.parse) == JStr("hi");
    assert StampOf(JStr("hi"), env) == Some(env.now);
    assert ContentOf(JStr("hi")) == JStr("hi");
    assert Database.Encode(JStr("hi"), env.dumps) == "hi";
    assert !KeyTaken(Empty, "user-1");
    var m := MessageRow(1, "user-1", "user", "1", JStr("hi"), JStr(env.now));
    assert SplitKey("user-1") == ("user", "1");
    var r := Insert(Empty, "user-1", "user", "1", JStr("hi"), JStr(env.now));
    assert Empty.messages + [m] == [m];
    assert r.Some? && r.value.1 == 1;
    assert r == Some((Empty.(messages := [m]), 1));
    assert SegmentsOf(JStr("hi"), 1) == Some([]);
    assert MergedOf(JStr("hi"), 1) == Some([]);
    var t1 := Empty.(messages := [m]);
    assert t1.(segments := t1.segments + [], merged := t1.merged + []) == t1;
    assert AddWithAudio(Empty, "user-1", "user", "1", JStr("hi"), JStr(env.now), JStr("hi")) == Some(t1);
    assert ConvertRow(Empty, row, env) == Some(t1);
    assert rows[..0] == [];
    assert ConvertRows(rows, env) == Some(Empty.(messages := [m]));
  }
}
