/** The backup catalogue: the `backups` table, keyed by a unique name, and the
    JSON files written beside it. Rows are kept in insertion order; an
    `INSERT OR REPLACE` on an existing name deletes the old row and inserts a new
    one, which SQLite places after the others. */
module BackupStore {
  import opened Collections
  import opened BackupCapture

  datatype BackupRecord = BackupRecord(name: string, serverId: nat, serverName: string, createdAt: int,
                                       createdBy: nat, filePath: string, description: string)

  datatype CreateOutcome = NameMissing | AlreadyExists | Created(snapshot: Snapshot)

  /** `os.path.join("backups", f"{name}.json")`. */
  function FilePathFor(name: string): string {
    "backups/" + name + ".json"
  }

  function HasName(name: string): BackupRecord -> bool {
    (r: BackupRecord) => r.name == name
  }

  function OtherName(name: string): BackupRecord -> bool {
    (r: BackupRecord) => r.name != name
  }

  function OnServer(serverId: nat): BackupRecord -> bool {
    (r: BackupRecord) => r.serverId == serverId
  }

  const CreatedAt: BackupRecord -> int := (r: BackupRecord) => r.createdAt

  /** The `UNIQUE` constraint on `name`. */
  predicate NamesUnique(rows: seq<BackupRecord>) {
    forall i, j :: 0 <= i < j < |rows| ==> rows[i].name != rows[j].name
  }

  /** `DELETE FROM backups WHERE name = ?`: the rows that keep their name. */
  function WithoutName(rows: seq<BackupRecord>, name: string): (r: seq<BackupRecord>)
    ensures forall i :: 0 <= i < |r| ==> r[i].name != name && r[i] in rows
    ensures forall i :: 0 <= i < |rows| && rows[i].name != name ==> rows[i] in r
    ensures |r| + |Filter(rows, HasName(name))| == |rows|
  {
    FilterPartition(rows, OtherName(name), HasName(name));
    Filter(rows, OtherName(name))
  }

  /** Removing rows cannot make two names clash. */
  lemma {:induction false} FilterKeepsNamesUnique(rows: seq<BackupRecord>, p: BackupRecord -> bool)
    requires NamesUnique(rows)
    ensures NamesUnique(Filter(rows, p))
    decreases |rows|
  {
    if |rows| > 0 {
      var init, last := rows[..|rows| - 1], rows[|rows| - 1];
      FilterKeepsNamesUnique(init, p);
      var kept := Filter(init, p);
      assert Filter(rows, p) == kept + (if p(last) then [last] else []);
      if p(last) {
        forall i | 0 <= i < |kept| ensures kept[i].name != last.name {
          var k :| 0 <= k < |init| && init[k] == kept[i];
          assert rows[k] == init[k] && rows[|rows| - 1] == last;
        }
        NamesUniqueSnoc(kept, last);
      } else {
        assert Filter(rows, p) == kept;
      }
    }
  }

  /** A row whose name no earlier row has can be added without a clash. */
  lemma NamesUniqueSnoc(rows: seq<BackupRecord>, rec: BackupRecord)
    requires NamesUnique(rows)
    requires forall i :: 0 <= i < |rows| ==> rows[i].name != rec.name
    ensures NamesUnique(rows + [rec])
  {
    var r := rows + [rec];
    forall i, j | 0 <= i < j < |r| ensures r[i].name != r[j].name {
      assert r[i] == rows[i];
    }
  }

  /** `INSERT OR REPLACE`: drops the row with the record's name, if any, and adds
      the record at the end. */
  function Upsert(rows: seq<BackupRecord>, rec: BackupRecord): (r: seq<BackupRecord>)
    ensures |r| >= 1 && r[|r| - 1] == rec
    ensures forall i :: 0 <= i < |r| - 1 ==> r[i].name != rec.name && r[i] in rows
    ensures forall i :: 0 <= i < |rows| && rows[i].name != rec.name ==> rows[i] in r
  {
    WithoutName(rows, rec.name) + [rec]
  }

  /** Replacing by name keeps the names unique and leaves exactly one row with the
      new record's name. */
  lemma UpsertKeepsNamesUnique(rows: seq<BackupRecord>, rec: BackupRecord)
    requires NamesUnique(rows)
    ensures NamesUnique(Upsert(rows, rec))
    ensures |Filter(Upsert(rows, rec), HasName(rec.name))| == 1
  {
    var kept := WithoutName(rows, rec.name);
    var r := Upsert(rows, rec);
    FilterKeepsNamesUnique(rows, OtherName(rec.name));
    FilterNone(kept, HasName(rec.name));
    FilterSnoc(kept, rec, HasName(rec.name));
  }

  /** The first row with that name, if any: `SELECT … WHERE name = ?` on a unique column. */
  function FindByName(rows: seq<BackupRecord>, name: string): (r: Option<BackupRecord>)
    ensures r.Some? ==> r.value in rows && r.value.name == name
    ensures r.None? <==> forall i :: 0 <= i < |rows| ==> rows[i].name != name
  {
    if |rows| == 0 then None
    else if rows[0].name == name then Some(rows[0])
    else FindByName(rows[1..], name)
  }

  /** The rows `get_backups` selects before ordering: the server's rows when the
      identifier is truthy, every row otherwise. */
  function Selected(rows: seq<BackupRecord>, serverId: Option<nat>): seq<BackupRecord> {
    if TruthyId(serverId) then Filter(rows, OnServer(serverId.value)) else rows
  }

  class Catalogue {
    /** The `backups` table in row order. */
    var rows: seq<BackupRecord>
    /** The snapshot files, by backup name. */
    var files: map<string, Snapshot>

    ghost predicate Valid()
      reads this
    {
      NamesUnique(rows)
    }

    constructor ()
      ensures rows == [] && files == map[] && Valid()
    {
      rows, files := [], map[];
    }

    /** `log_backup`, stamped with `now` as `created_at`. */
    method LogBackup(name: string, serverId: nat, serverName: string, createdBy: nat, filePath: string,
                     description: string, now: int)
      requires Valid()
      modifies this
      ensures Valid()
      ensures rows == Upsert(old(rows), BackupRecord(name, serverId, serverName, now, createdBy, filePath, description))
      ensures files == old(files)
    {
      var rec := BackupRecord(name, serverId, serverName, now, createdBy, filePath, description);
      UpsertKeepsNamesUnique(rows, rec);
      rows := Upsert(rows, rec);
    }

    /** `get_backups`: the selected rows, newest first. */
    method GetBackups(serverId: Option<nat>) returns (r: seq<BackupRecord>)
      ensures SortedDesc(r, CreatedAt)
      ensures multiset(r) == multiset(Selected(rows, serverId))
      ensures TruthyId(serverId) ==> forall i :: 0 <= i < |r| ==> r[i].serverId == serverId.value
      ensures !TruthyId(serverId) ==> |r| == |rows|
    {
      r := SortDesc(Selected(rows, serverId), CreatedAt);
      if TruthyId(serverId) {
        forall i | 0 <= i < |r| ensures r[i].serverId == serverId.value {
          assert r[i] in multiset(Selected(rows, serverId));
        }
      }
    }

    /** `get_backup_info`. */
    method GetBackupInfo(name: string) returns (r: Option<BackupRecord>)
      ensures r.Some? ==> r.value in rows && r.value.name == name
      ensures r.None? <==> forall i :: 0 <= i < |rows| ==> rows[i].name != name
    {
      r := FindByName(rows, name);
    }

    /** `delete_backup`: reports whether a row had that name; afterwards none has. */
    method DeleteBackup(name: string) returns (existed: bool)
      requires Valid()
      modifies this
      ensures Valid()
      ensures existed <==> exists i :: 0 <= i < |old(rows)| && old(rows)[i].name == name
      ensures rows == WithoutName(old(rows), name)
      ensures forall i :: 0 <= i < |rows| ==> rows[i].name != name
      ensures files == old(files)
    {
      var kept := WithoutName(rows, name);
      FilterKeepsNamesUnique(rows, OtherName(name));
      existed := |kept| < |rows|;
      if existed {
        var e := Filter(rows, HasName(name))[0];
        assert e in rows;
      }
      rows := kept;
    }

    /** `create_backup` behind the `backup create` command: a missing name or a
        name already in the catalogue changes nothing; otherwise the snapshot is
        taken, written to its file and recorded by `log_backup`. */
    method CreateBackup(name: string, guild: SourceGuild, author: nat, description: string, now: int)
      returns (outcome: CreateOutcome)
      requires Valid()
      modifies this
      ensures Valid()
      ensures name == "" ==> outcome == NameMissing
      ensures outcome == NameMissing || outcome == AlreadyExists ==> rows == old(rows) && files == old(files)
      ensures name != "" && FindByName(old(rows), name).Some? ==> outcome == AlreadyExists
      ensures name != "" && FindByName(old(rows), name).None? ==>
        && outcome == Created(CreateBackupData(guild, now))
        && files == old(files)[name := outcome.snapshot]
        && rows == Upsert(old(rows), BackupRecord(name, guild.info.id, guild.info.name, now, author,
                                                  FilePathFor(name), description))
    {
      if name == "" {
        return NameMissing;
      }
      var existing := GetBackupInfo(name);
      if existing.Some? {
        return AlreadyExists;
      }
      var snapshot := CreateBackupData(guild, now);
      files := files[name := snapshot];
      LogBackup(name, guild.info.id, guild.info.name, author, FilePathFor(name), description, now);
      outcome := Created(snapshot);
    }
  }
}
