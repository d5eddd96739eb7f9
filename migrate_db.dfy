/**
 * back-end/migrate_db.py: `migrate_old_to_new`, an older variant of the
 * legacy migration that writes the key/value rows into the ORM tables
 * without parsing timestamps and always JSON-encodes a dict's content.
 */
module MigrateDb {
  import opened Wrappers
  import opened Json
  import opened Strs
  import MessageModel
  import Database
  import opened NewSchema
  import RebuildDb

  type LegacyRow = RebuildDb.LegacyRow

  /**
   * The role and id of a legacy key (migrate_db.py:52-53): the text before
   * the first `-` and the text after it, or 'unknown' and the whole key.
   */
  function ParseKey(key: string): (string, string)
  {
    if '-' in key then (SplitBy(key, "-")[0], RebuildDb.SplitOnce(key)[1]) else ("unknown", key)
  }

  /** Both migrations read the same role and id out of every key. */
  lemma ParseKeyAgrees(key: string)
    ensures ParseKey(key) == RebuildDb.SplitKey(key)
  {
    var i := Find(key, "-");
    RebuildDb.DashFound(key);
    if '-' in key {
      assert SplitBy(key, "-")[0] == key[..i];
      RebuildDb.FirstDash(key, i);
    }
  }

  /** Round trip with the key format of the chat database, as in the other migration. */
  lemma ParseKeyOfKey(role: string, messageId: string)
    requires '-' !in role
    ensures ParseKey(Database.KeyOf(role, messageId)) == (role, messageId)
  {
    ParseKeyAgrees(Database.KeyOf(role, messageId));
    RebuildDb.SplitKeyOfKey(role, messageId);
  }

  /**
   * The stored content (migrate_db.py:60): `json.dumps` of a dict's
   * `content` (default `{}`), whatever its type; any other value as it is.
   */
  function StoredContent(value: Value, dumps: Database.Dumper): Value
  {
    if value.JObj? then JStr(dumps(Field(value.fields, "content", JObj(map[])))) else value
  }

  /** The timestamp handed to the column (migrate_db.py:61): a dict's `timestamp` as given, else None. */
  function GivenTimestamp(value: Value): Value
  {
    if value.JObj? then Field(value.fields, "timestamp", JNull) else JNull
  }

  /**
   * The timestamp stored: a `None` is left out of the INSERT, so the column
   * default `datetime.now` (back-end/models/database_models.py:19) fires;
   * `now` is the clock's reading.
   */
  function StoredTimestamp(value: Value, now: string): (r: Value)
    ensures r != JNull
    ensures GivenTimestamp(value) != JNull ==> r == GivenTimestamp(value)
    ensures GivenTimestamp(value) == JNull ==> r == JStr(now)
  {
    Database.ColumnValue(GivenTimestamp(value), JStr(now))
  }

  /**
   * The two migrations disagree on a dict whose content is already text:
   * this one stores it JSON-encoded, back-end/rebuild_db.py stores it as is.
   */
  lemma StringContentEncodedTwice(value: Value, c: string, dumps: Database.Dumper)
    requires value.JObj? && "content" in value.fields && value.fields["content"] == JStr(c)
    ensures StoredContent(value, dumps) == JStr(dumps(JStr(c)))
    ensures JStr(Database.Encode(RebuildDb.ContentOf(value), dumps)) == JStr(c)
  {
  }

  /**
   * One pass of the row loop (migrate_db.py:40-86), for a key/value table;
   * None when the row raises: a NULL key, a duplicate key, or audio entries
   * that are not dicts.
   */
  function ConvertRow(t: Tables, row: LegacyRow, parse: MessageModel.Parser,
                      dumps: Database.Dumper, now: string): Option<Tables>
  {
    if row.key.None? then None
    else
      var value := RebuildDb.LegacyValue(row.value, parse);
      var (role, messageId) := ParseKey(row.key.value);
      AddWithAudio(t, row.key.value, role, messageId, StoredContent(value, dumps), StoredTimestamp(value, now),
                   value)
  }

  /** The session after the first rows; None once a row has raised. */
  function ConvertRows(rows: seq<LegacyRow>, parse: MessageModel.Parser,
                       dumps: Database.Dumper, now: string): Option<Tables>
  {
    if |rows| == 0 then Some(Empty)
    else
      match ConvertRows(rows[..|rows| - 1], parse, dumps, now)
      case None => None
      case Some(t) => ConvertRow(t, rows[|rows| - 1], parse, dumps, now)
  }

  /**
   * `migrate_old_to_new` (migrate_db.py:7-96): the committed tables, or
   * None when nothing is committed. With no `messages` table the
   * `SELECT *` raises; a table of another layout has every row skipped and
   * commits an empty session.
   */
  function MigrateSpec(columns: seq<string>, rows: seq<LegacyRow>, parse: MessageModel.Parser,
                       dumps: Database.Dumper, now: string): Option<Tables>
  {
    if |columns| == 0 then None
    else if !RebuildDb.KeyValueTable(columns) then Some(Empty)
    else ConvertRows(rows, parse, dumps, now)
  }

  /** The migration loop, with the layout test inside it as the source has it. */
  method MigrateOldToNew(columns: seq<string>, rows: seq<LegacyRow>, parse: MessageModel.Parser,
                         dumps: Database.Dumper, now: string) returns (committed: Option<Tables>)
    ensures committed == MigrateSpec(columns, rows, parse, dumps, now)
  {
    if |columns| == 0 {
      return None;
    }
    var keyValue := "key" in columns && "value" in columns;
    var db := new Session();
    var i := 0;
    while i < |rows|
      invariant i <= |rows|
      invariant keyValue ==> ConvertRows(rows[..i], parse, dumps, now) == Some(db.State())
      invariant !keyValue ==> db.State() == Empty
    {
      if !keyValue {
        i := i + 1;
        continue;
      }
      assert rows[..i + 1][..i] == rows[..i];
      var done := MigrateRow(db, rows[i], parse, dumps, now);
      if !done {
        RowsFailFrom(rows, i, parse, dumps, now);
        return None;
      }
      i := i + 1;
    }
    assert rows[..|rows|] == rows;
    return Some(db.State());
  }

  /** The body of the loop for a key/value row: build the message, flush, add its audio rows. */
  method MigrateRow(db: Session, row: LegacyRow, parse: MessageModel.Parser,
                    dumps: Database.Dumper, now: string)
    returns (ok: bool)
    modifies db
    ensures ok <==> ConvertRow(old(db.State()), row, parse, dumps, now).Some?
    ensures ok ==> Some(db.State()) == ConvertRow(old(db.State()), row, parse, dumps, now)
  {
    if row.key.None? {
      return false;
    }
    var key := row.key.value;
    var value := RebuildDb.LegacyValue(row.value, parse);
    var role := "unknown";
    var messageId := key;
    if '-' in key {
      var parts := SplitBy(key, "-");
      role := parts[0];
      messageId := RebuildDb.SplitOnce(key)[1];
    }
    ok := db.AddAll(key, role, messageId, StoredContent(value, dumps), StoredTimestamp(value, now), value);
  }

  lemma RowsFailFrom(rows: seq<LegacyRow>, i: nat, parse: MessageModel.Parser,
                     dumps: Database.Dumper, now: string)
    requires i < |rows|
    requires ConvertRows(rows[..i], parse, dumps, now).Some?
    requires ConvertRow(ConvertRows(rows[..i], parse, dumps, now).value, rows[i], parse, dumps, now).None?
    ensures ConvertRows(rows, parse, dumps, now).None?
  {
    assert rows[..i + 1][..i] == rows[..i];
    RowsFailAfter(rows, i + 1, parse, dumps, now);
  }

  lemma {:induction false} RowsFailAfter(rows: seq<LegacyRow>, n: nat, parse: MessageModel.Parser,
                                         dumps: Database.Dumper, now: string)
    requires n <= |rows| && ConvertRows(rows[..n], parse, dumps, now).None?
    ensures ConvertRows(rows, parse, dumps, now).None?
    decreases |rows| - n
  {
    if n < |rows| {
      assert rows[..n + 1][..n] == rows[..n];
      RowsFailAfter(rows, n + 1, parse, dumps, now);
    } else {
      assert rows[..n] == rows;
    }
  }

  // ---------------------------------------------------------------------------
  // What a successful migration holds
  // ---------------------------------------------------------------------------

  /** Message `m` is what the loop builds from `row` as the `id`-th message. */
  predicate Migrates(m: MessageRow, row: LegacyRow, id: nat, parse: MessageModel.Parser,
                     dumps: Database.Dumper, now: string)
  {
    && row.key.Some?
    && var value := RebuildDb.LegacyValue(row.value, parse);
       m == MessageRow(id, row.key.value, ParseKey(row.key.value).0, ParseKey(row.key.value).1,
                       StoredContent(value, dumps), StoredTimestamp(value, now))
  }

  predicate RowsMigrated(ms: seq<MessageRow>, rows: seq<LegacyRow>, parse: MessageModel.Parser,
                         dumps: Database.Dumper, now: string)
  {
    |ms| == |rows| && forall i :: 0 <= i < |rows| ==> Migrates(ms[i], rows[i], i + 1, parse, dumps, now)
  }

  lemma RowsMigratedSnoc(ms: seq<MessageRow>, rows: seq<LegacyRow>, m: MessageRow, row: LegacyRow,
                         parse: MessageModel.Parser, dumps: Database.Dumper, now: string)
    requires RowsMigrated(ms, rows, parse, dumps, now) && Migrates(m, row, |ms| + 1, parse, dumps, now)
    ensures RowsMigrated(ms + [m], rows + [row], parse, dumps, now)
  {
    forall i | 0 <= i < |rows| + 1
      ensures Migrates((ms + [m])[i], (rows + [row])[i], i + 1, parse, dumps, now)
    {
      if i < |rows| {
        assert (ms + [m])[i] == ms[i] && (rows + [row])[i] == rows[i];
      }
    }
  }

  lemma LastRowAdded(t: Tables, row: LegacyRow, t': Tables, parse: MessageModel.Parser,
                     dumps: Database.Dumper, now: string)
    requires Linked(t)
    requires ConvertRow(t, row, parse, dumps, now) == Some(t')
    ensures Linked(t')
    ensures t'.messages == t.messages + [t'.messages[|t.messages|]]
    ensures Migrates(t'.messages[|t.messages|], row, |t.messages| + 1, parse, dumps, now)
  {
    var value := RebuildDb.LegacyValue(row.value, parse);
    var (role, messageId) := ParseKey(row.key.value);
    AddWithAudioLinked(t, row.key.value, role, messageId, StoredContent(value, dumps), StoredTimestamp(value, now),
                       value);
  }

  /**
   * After a successful run over a key/value table, the tables are linked
   * and hold one message per legacy row, in order, with id i+1, the row's
   * key, the parsed role and id, and the stored content and timestamp.
   */
  lemma {:induction false} ConvertRowsMessages(rows: seq<LegacyRow>, parse: MessageModel.Parser,
                                               dumps: Database.Dumper, now: string)
    requires ConvertRows(rows, parse, dumps, now).Some?
    ensures Linked(ConvertRows(rows, parse, dumps, now).value)
    ensures RowsMigrated(ConvertRows(rows, parse, dumps, now).value.messages, rows, parse, dumps, now)
    decreases |rows|
  {
    if |rows| > 0 {
      var init, last := rows[..|rows| - 1], rows[|rows| - 1];
      ConvertRowsMessages(init, parse, dumps, now);
      var t0 := ConvertRows(init, parse, dumps, now).value;
      var t := ConvertRows(rows, parse, dumps, now).value;
      assert ConvertRow(t0, last, parse, dumps, now) == Some(t);
      LastRowAdded(t0, last, t, parse, dumps, now);
      RowsMigratedSnoc(t0.messages, init, t.messages[|t0.messages|], last, parse, dumps, now);
      assert init + [last] == rows;
    } else {
      EmptyLinked();
    }
  }

  /**
   * The outcomes of a run: nothing is committed exactly when there is no
   * `messages` table or a row raises, a table of another layout commits
   * nothing but succeeds, and a committed key/value migration is linked
   * and holds one message per row.
   */
  lemma MigrateOutcomes(columns: seq<string>, rows: seq<LegacyRow>, parse: MessageModel.Parser,
                        dumps: Database.Dumper, now: string)
    ensures var r := MigrateSpec(columns, rows, parse, dumps, now);
      && (r.None? <==> |columns| == 0 || (RebuildDb.KeyValueTable(columns) && ConvertRows(rows, parse, dumps, now).None?))
      && (|columns| > 0 && !RebuildDb.KeyValueTable(columns) ==> r == Some(Empty))
      && (r.Some? ==> Linked(r.value))
      && (r.Some? && RebuildDb.KeyValueTable(columns) ==> RowsMigrated(r.value.messages, rows, parse, dumps, now))
  {
    if |columns| > 0 && RebuildDb.KeyValueTable(columns) && ConvertRows(rows, parse, dumps, now).Some? {
      ConvertRowsMessages(rows, parse, dumps, now);
    } else {
      EmptyLinked();
    }
  }

  /** A successful run had no NULL key and no key twice. */
  lemma ConvertedKeysDistinct(rows: seq<LegacyRow>, parse: MessageModel.Parser,
                              dumps: Database.Dumper, now: string)
    requires ConvertRows(rows, parse, dumps, now).Some?
    ensures forall i :: 0 <= i < |rows| ==> rows[i].key.Some?
    ensures forall i, j :: 0 <= i < j < |rows| ==> rows[i].key != rows[j].key
  {
    ConvertRowsMessages(rows, parse, dumps, now);
    var t := ConvertRows(rows, parse, dumps, now).value;
    forall i | 0 <= i < |rows|
      ensures rows[i].key.Some?
    {
      assert Migrates(t.messages[i], rows[i], i + 1, parse, dumps, now);
    }
    forall i, j | 0 <= i < j < |rows|
      ensures rows[i].key != rows[j].key
    {
      assert Migrates(t.messages[i], rows[i], i + 1, parse, dumps, now);
      assert Migrates(t.messages[j], rows[j], j + 1, parse, dumps, now);
      assert t.messages[i].key == rows[i].key.value;
      assert t.messages[j].key == rows[j].key.value;
    }
  }

  // ---------------------------------------------------------------------------
  // The timestamp as written
  // ---------------------------------------------------------------------------

  /**
   * A row as written: the legacy `timestamp` reaches the `DateTime` column
   * of back-end/models/database_models.py:19 as text, and SQLite's
   * `DateTime` type accepts only datetime objects, so the flush raises for
   * every dict value that carries a timestamp.
   */
  function ConvertRowAsWritten(t: Tables, row: LegacyRow, parse: MessageModel.Parser,
                               dumps: Database.Dumper, now: string): Option<Tables>
  {
    if row.key.Some? && GivenTimestamp(RebuildDb.LegacyValue(row.value, parse)) != JNull then None
    else ConvertRow(t, row, parse, dumps, now)
  }

  /**
   * The discrepancy: a legacy message with an ISO timestamp, which the
   * intended row conversion stores with that timestamp, makes the row as
   * written raise, and with it the whole run.
   */
  lemma TimestampRejectedAsWritten(parse: MessageModel.Parser,
                                   dumps: Database.Dumper, now: string, raw: string)
    requires parse(raw) == Some(JObj(map["content" := JStr("hi"), "timestamp" := JStr("2024-01-01T00:00:00")]))
    ensures var row := RebuildDb.LegacyRow(Some("user-1"), Some(raw));
      && ConvertRowAsWritten(Empty, row, parse, dumps, now).None?
      && ConvertRow(Empty, row, parse, dumps, now).Some?
      && ConvertRow(Empty, row, parse, dumps, now).value.messages[0].timestamp == JStr("2024-01-01T00:00:00")
  {
    var value := JObj(map["content" := JStr("hi"), "timestamp" := JStr("2024-01-01T00:00:00")]);
    var row := RebuildDb.LegacyRow(Some("user-1"), Some(raw));
    assert RebuildDb.LegacyValue(row.value, parse) == value;
    assert StoredTimestamp(value, now) == JStr("2024-01-01T00:00:00");
    assert !KeyTaken(Empty, "user-1");
    assert SegmentsOf(value, 1) == Some([]);
    assert MergedOf(value, 1) == Some([]);
  }
}
