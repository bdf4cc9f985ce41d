/**
  The SQLite record store as two in-memory tables. Rows are kept in rowid
  order; ids come from per-table AUTOINCREMENT counters and timestamps from
  a logical clock that every write advances. The JSON text the code stores
  in the `settings` and `metadata` columns is modelled by the values
  themselves, since `json.loads(json.dumps(v))` gives `v` back.
 */
module Database {
  import opened Wrappers
  import opened FileSystem
  import opened Settings

  /** A row of the `applications` table. */
  datatype Application = Application(
    id: nat, name: string, path: Path, category: string, kind: string, size: nat,
    settings: seq<Setting>, createdAt: nat, updatedAt: nat)

  /** A row of the `backups` table. */
  datatype Backup = Backup(
    id: nat, appId: nat, filename: string, storagePath: Path, size: nat,
    metadata: Metadata, createdAt: nat, restoredAt: Option<nat>)

  /** A row of `SELECT b.*, a.name as app_name FROM backups b JOIN applications a ON b.app_id = a.id`. */
  datatype BackupView = BackupView(row: Backup, appName: string)

  /** The applications table's invariant: ids increase with rowid, `UNIQUE(path)`, stamps in the past. */
  ghost predicate AppTable(apps: seq<Application>, nextId: nat, clock: nat) {
    (forall i | 0 <= i < |apps| :: 1 <= apps[i].id < nextId && apps[i].createdAt <= apps[i].updatedAt < clock)
    && (forall i, j | 0 <= i < j < |apps| :: apps[i].id < apps[j].id && apps[i].path != apps[j].path)
  }

  /** Backups in rowid order: ids and creation stamps increase, `UNIQUE(storage_path)`. */
  ghost predicate Chrono(rows: seq<Backup>) {
    forall i, j | 0 <= i < j < |rows| ::
      rows[i].id < rows[j].id && rows[i].createdAt < rows[j].createdAt && rows[i].storagePath != rows[j].storagePath
  }

  /** The backups table's invariant. */
  ghost predicate BackupTable(rows: seq<Backup>, nextId: nat, clock: nat) {
    Chrono(rows)
    && forall i | 0 <= i < |rows| ::
         1 <= rows[i].id < nextId && rows[i].createdAt < clock
         && (rows[i].restoredAt.Some? ==> rows[i].restoredAt.value < clock)
  }

  /** `SELECT * FROM applications WHERE name = ? AND path = ?`: the index of the first match. */
  function FindApp(apps: seq<Application>, name: string, path: Path): (r: Option<nat>)
    ensures r.Some? ==> r.value < |apps| && apps[r.value].name == name && apps[r.value].path == path
    ensures r.Some? ==> forall k | 0 <= k < r.value :: !(apps[k].name == name && apps[k].path == path)
    ensures r.None? ==> forall k | 0 <= k < |apps| :: !(apps[k].name == name && apps[k].path == path)
  {
    if apps == [] then None
    else if apps[0].name == name && apps[0].path == path then Some(0)
    else match FindApp(apps[1..], name, path)
      case None => None
      case Some(k) => Some(k + 1)
  }

  /** Some row already holds `path` (the `UNIQUE(path)` constraint would fail). */
  predicate PathTaken(apps: seq<Application>, path: Path) {
    exists k | 0 <= k < |apps| :: apps[k].path == path
  }

  /** Some row already holds `storagePath` (the `UNIQUE(storage_path)` constraint would fail). */
  predicate StoragePathTaken(rows: seq<Backup>, storagePath: Path) {
    exists k | 0 <= k < |rows| :: rows[k].storagePath == storagePath
  }

  /** The application row with this id, the other side of the JOIN. */
  function AppById(apps: seq<Application>, id: nat): (r: Option<Application>)
    ensures r.Some? ==> r.value in apps && r.value.id == id
    ensures r.None? ==> forall k | 0 <= k < |apps| :: apps[k].id != id
  {
    if apps == [] then None
    else if apps[0].id == id then Some(apps[0])
    else AppById(apps[1..], id)
  }

  /** `if app_id:`: a filter is applied only for a truthy id. */
  predicate Filters(appId: Option<int>) {
    appId.Some? && appId.value != 0
  }

  /** The backup row appears in the JOIN (its application exists) and passes the filter. */
  predicate Visible(apps: seq<Application>, appId: Option<int>, b: Backup) {
    AppById(apps, b.appId).Some? && (Filters(appId) ==> b.appId == appId.value)
  }

  /** The joined row for a visible backup. */
  function View(apps: seq<Application>, b: Backup): BackupView
    requires AppById(apps, b.appId).Some?
  {
    BackupView(b, AppById(apps, b.appId).value.name)
  }

  /** The inner JOIN and the `WHERE app_id = ?` filter, in rowid order. */
  function Joined(rows: seq<Backup>, apps: seq<Application>, appId: Option<int>): (r: seq<BackupView>)
    ensures forall v | v in r :: v.row in rows && Visible(apps, appId, v.row) && v == View(apps, v.row)
    ensures forall b | b in rows && Visible(apps, appId, b) :: View(apps, b) in r
    ensures Chrono(rows) ==> Ascending(r)
  {
    if rows == [] then []
    else
      var rest := Joined(rows[1..], apps, appId);
      if Visible(apps, appId, rows[0]) then
        AscendingCons(rows, View(apps, rows[0]), rest);
        [View(apps, rows[0])] + rest
      else
        ChronoTail(rows);
        rest
  }

  /** Joined rows in increasing order of creation. */
  predicate Ascending(vs: seq<BackupView>) {
    forall i, j | 0 <= i < j < |vs| :: vs[i].row.createdAt < vs[j].row.createdAt
  }

  lemma ChronoTail(rows: seq<Backup>)
    requires rows != []
    ensures Chrono(rows) ==> Chrono(rows[1..])
  {
    forall i, j | 0 <= i < j < |rows[1..]| && Chrono(rows)
      ensures rows[1..][i].id < rows[1..][j].id && rows[1..][i].createdAt < rows[1..][j].createdAt
              && rows[1..][i].storagePath != rows[1..][j].storagePath
    {
      assert rows[1..][i] == rows[i + 1] && rows[1..][j] == rows[j + 1];
    }
  }

  /** The first row's view goes before views of later rows. */
  lemma AscendingCons(rows: seq<Backup>, v: BackupView, rest: seq<BackupView>)
    requires rows != [] && v.row == rows[0]
    requires forall w | w in rest :: w.row in rows[1..]
    requires Chrono(rows[1..]) ==> Ascending(rest)
    ensures Chrono(rows) ==> Ascending([v] + rest)
  {
    if Chrono(rows) {
      ChronoTail(rows);
      var s := [v] + rest;
      forall i, j | 0 <= i < j < |s| ensures s[i].row.createdAt < s[j].row.createdAt {
        if i == 0 {
          assert s[j] == rest[j - 1] && s[j] in rest;
          var k :| 0 <= k < |rows[1..]| && rows[1..][k] == s[j].row;
          assert rows[k + 1] == s[j].row;
        } else {
          assert s[i] == rest[i - 1] && s[j] == rest[j - 1];
        }
      }
    }
  }

  /** The elements of `s` in the opposite order. */
  function Reverse<T>(s: seq<T>): (r: seq<T>)
    ensures |r| == |s| && forall k | 0 <= k < |s| :: r[k] == s[|s| - 1 - k]
  {
    if s == [] then [] else Reverse(s[1..]) + [s[0]]
  }

  /** Reversing a list in increasing order of creation puts the newest first and keeps its elements. */
  lemma ReverseNewestFirst(vs: seq<BackupView>)
    requires Ascending(vs)
    ensures forall v :: v in Reverse(vs) <==> v in vs
    ensures forall i, j | 0 <= i < j < |vs| :: Reverse(vs)[i].row.createdAt > Reverse(vs)[j].row.createdAt
  {
    var r := Reverse(vs);
    forall v ensures v in r <==> v in vs {
      if v in r {
        var k :| 0 <= k < |r| && r[k] == v;
        assert vs[|vs| - 1 - k] == v;
      }
      if v in vs {
        var k :| 0 <= k < |vs| && vs[k] == v;
        assert r[|vs| - 1 - k] == v;
      }
    }
  }

  /** `rows` without the rows carrying `id`: `DELETE FROM backups WHERE id = ?`. */
  function Without(rows: seq<Backup>, id: nat): (r: seq<Backup>)
    ensures forall b :: b in r <==> b in rows && b.id != id
    ensures Chrono(rows) ==> Chrono(r)
  {
    if rows == [] then []
    else
      var rest := Without(rows[1..], id);
      assert forall b | b in rows[1..] :: b in rows;
      if rows[0].id == id then
        ChronoTail(rows);
        rest
      else
        ChronoCons(rows, rest);
        [rows[0]] + rest
  }

  /** Putting the first row in front of a chronological selection of the others keeps it chronological. */
  lemma ChronoCons(rows: seq<Backup>, rest: seq<Backup>)
    requires rows != []
    requires forall b | b in rest :: b in rows[1..]
    requires Chrono(rows) ==> Chrono(rows[1..]) ==> Chrono(rest)
    ensures Chrono(rows) ==> Chrono([rows[0]] + rest)
  {
    if Chrono(rows) {
      ChronoTail(rows);
      var s := [rows[0]] + rest;
      forall i, j | 0 <= i < j < |s|
        ensures s[i].id < s[j].id && s[i].createdAt < s[j].createdAt && s[i].storagePath != s[j].storagePath
      {
        if i == 0 {
          assert s[j] == rest[j - 1] && s[j] in rows[1..];
          var k :| 0 <= k < |rows[1..]| && rows[1..][k] == s[j];
          assert rows[k + 1] == s[j];
        } else {
          assert s[i] == rest[i - 1] && s[j] == rest[j - 1];
        }
      }
    }
  }

  /** Time passing keeps both tables valid. */
  lemma Tick(apps: seq<Application>, nextAppId: nat, rows: seq<Backup>, nextBackupId: nat, clock: nat)
    requires AppTable(apps, nextAppId, clock) && BackupTable(rows, nextBackupId, clock)
    ensures AppTable(apps, nextAppId, clock + 1) && BackupTable(rows, nextBackupId, clock + 1)
  {
  }

  /** An update that keeps ids, paths and creation stamps and stamps `updated_at` now keeps the table valid. */
  lemma AppTableUpdate(apps: seq<Application>, nextId: nat, clock: nat, i: nat, row: Application)
    requires AppTable(apps, nextId, clock) && i < |apps|
    requires row.id == apps[i].id && row.path == apps[i].path && row.createdAt == apps[i].createdAt && row.updatedAt == clock
    ensures AppTable(apps[i := row], nextId, clock + 1)
  {
    var s := apps[i := row];
    forall k | 0 <= k < |s| ensures 1 <= s[k].id < nextId && s[k].createdAt <= s[k].updatedAt < clock + 1 {
      if k == i {} else { assert s[k] == apps[k]; }
    }
    forall j, k | 0 <= j < k < |s| ensures s[j].id < s[k].id && s[j].path != s[k].path {
      assert s[j].id == apps[j].id && s[j].path == apps[j].path;
      assert s[k].id == apps[k].id && s[k].path == apps[k].path;
    }
  }

  /** Inserting a row with the next id and an unused path keeps the table valid. */
  lemma AppTableAppend(apps: seq<Application>, nextId: nat, clock: nat, row: Application)
    requires AppTable(apps, nextId, clock) && nextId >= 1
    requires row.id == nextId && row.createdAt == clock && row.updatedAt == clock && !PathTaken(apps, row.path)
    ensures AppTable(apps + [row], nextId + 1, clock + 1)
  {
    var s := apps + [row];
    forall k | 0 <= k < |s| ensures 1 <= s[k].id < nextId + 1 && s[k].createdAt <= s[k].updatedAt < clock + 1 {
      if k < |apps| { assert s[k] == apps[k]; }
    }
    forall j, k | 0 <= j < k < |s| ensures s[j].id < s[k].id && s[j].path != s[k].path {
      assert s[j] == apps[j];
      if k < |apps| { assert s[k] == apps[k]; }
    }
  }

  /** Inserting a backup with the next id, stamped now, at an unused storage path keeps the table valid. */
  lemma BackupTableAppend(rows: seq<Backup>, nextId: nat, clock: nat, row: Backup)
    requires BackupTable(rows, nextId, clock) && nextId >= 1
    requires row.id == nextId && row.createdAt == clock && row.restoredAt.None? && !StoragePathTaken(rows, row.storagePath)
    ensures BackupTable(rows + [row], nextId + 1, clock + 1)
  {
    var s := rows + [row];
    forall k | 0 <= k < |s|
      ensures 1 <= s[k].id < nextId + 1 && s[k].createdAt < clock + 1 && (s[k].restoredAt.Some? ==> s[k].restoredAt.value < clock + 1)
    {
      if k < |rows| { assert s[k] == rows[k]; }
    }
    forall j, k | 0 <= j < k < |s|
      ensures s[j].id < s[k].id && s[j].createdAt < s[k].createdAt && s[j].storagePath != s[k].storagePath
    {
      assert s[j] == rows[j];
      if k < |rows| { assert s[k] == rows[k]; }
    }
  }

  /** What `add_application` gives back and leaves in the table. */
  datatype Upsert = Upsert(row: Option<Application>, apps: seq<Application>, nextId: nat)

  /** The SELECT / UPDATE or INSERT / re-read sequence `add_application` runs, as a transition of the table. */
  function Upserted(apps: seq<Application>, nextId: nat, clock: nat, name: string, path: Path,
                    category: string, kind: string, size: nat, settings: seq<Setting>): (u: Upsert)
    ensures u.row.None? <==> settings == [] || (FindApp(apps, name, path).None? && PathTaken(apps, path))
    ensures u.row.None? ==> u.apps == apps && u.nextId == nextId
    ensures u.row.Some? ==>
      && u.row.value in u.apps
      && u.row.value.name == name && u.row.value.path == path && u.row.value.category == category
      && u.row.value.kind == kind && u.row.value.size == size && u.row.value.settings == settings
      && u.row.value.updatedAt == clock
    ensures u.row.Some? && FindApp(apps, name, path).Some? ==>
      var i := FindApp(apps, name, path).value;
      && u.row.value.id == apps[i].id && u.row.value.createdAt == apps[i].createdAt
      && u.apps == apps[i := u.row.value] && u.nextId == nextId
    ensures u.row.Some? && FindApp(apps, name, path).None? ==>
      u.row.value.id == nextId && u.row.value.createdAt == clock && u.apps == apps + [u.row.value] && u.nextId == nextId + 1
  {
    if settings == [] then Upsert(None, apps, nextId)
    else match FindApp(apps, name, path)
      case Some(i) =>
        var row := apps[i].(category := category, kind := kind, size := size, settings := settings, updatedAt := clock);
        assert apps[i := row][i] == row;
        Upsert(Some(row), apps[i := row], nextId)
      case None =>
        if PathTaken(apps, path) then Upsert(None, apps, nextId)
        else
          var row := Application(nextId, name, path, category, kind, size, settings, clock, clock);
          Upsert(Some(row), apps + [row], nextId + 1)
  }

  /** An accepted upsert keeps the applications table valid. */
  lemma UpsertKeepsTable(apps: seq<Application>, nextId: nat, clock: nat, name: string, path: Path,
                         category: string, kind: string, size: nat, settings: seq<Setting>)
    requires AppTable(apps, nextId, clock) && nextId >= 1
    ensures var u := Upserted(apps, nextId, clock, name, path, category, kind, size, settings);
      AppTable(u.apps, u.nextId, clock + 1)
  {
    var u := Upserted(apps, nextId, clock, name, path, category, kind, size, settings);
    if u.row.Some? {
      match FindApp(apps, name, path)
        case Some(i) => AppTableUpdate(apps, nextId, clock, i, u.row.value);
        case None => AppTableAppend(apps, nextId, clock, u.row.value);
    } else {
      assert forall k | 0 <= k < |apps| :: apps[k].updatedAt < clock + 1;
    }
  }

  /** The row `add_backup` inserts, when its storage path is free. */
  function NewBackup(nextId: nat, clock: nat, appId: nat, filename: string, storagePath: Path, size: nat, metadata: Metadata): Backup {
    Backup(nextId, appId, filename, storagePath, size, metadata, clock, None)
  }

  /** `UPDATE backups SET restored_at = CURRENT_TIMESTAMP WHERE id = ?` */
  function MarkRestored(rows: seq<Backup>, id: nat, now: nat): (r: seq<Backup>)
    ensures |r| == |rows|
    ensures forall k | 0 <= k < |rows| :: r[k].id == rows[k].id && r[k].createdAt == rows[k].createdAt && r[k].storagePath == rows[k].storagePath
    ensures forall k | 0 <= k < |rows| && rows[k].id == id :: r[k].restoredAt == Some(now) && r[k] == rows[k].(restoredAt := Some(now))
    ensures forall k | 0 <= k < |rows| && rows[k].id != id :: r[k] == rows[k]
  {
    seq(|rows|, k requires 0 <= k < |rows| => if rows[k].id == id then rows[k].(restoredAt := Some(now)) else rows[k])
  }

  class Database {
    var applications: seq<Application>
    var backups: seq<Backup>
    var nextAppId: nat
    var nextBackupId: nat
    var clock: nat

    ghost predicate Valid()
      reads this
    {
      && nextAppId >= 1 && nextBackupId >= 1
      && AppTable(applications, nextAppId, clock) && BackupTable(backups, nextBackupId, clock)
    }

    /** Opening a fresh database file creates the two empty tables. */
    constructor ()
      ensures Valid()
      ensures applications == [] && backups == [] && nextAppId == 1 && nextBackupId == 1
    {
      applications, backups := [], [];
      nextAppId, nextBackupId := 1, 1;
      clock := 0;
    }

    /**
      `add_application`: an upsert keyed by (name, path). An empty settings
      list is handed to SQLite unserialised, which cannot bind it, so the
      statement fails; a new row whose path another row already holds breaks
      `UNIQUE(path)`. Both failures roll back and give `None`.
     */
    method AddApplication(name: string, path: Path, category: string, kind: string, size: nat, settings: seq<Setting>)
      returns (r: Option<Application>)
      requires Valid()
      modifies this
      ensures Valid()
      ensures backups == old(backups) && nextBackupId == old(nextBackupId) && clock == old(clock) + 1
      ensures var u := Upserted(old(applications), old(nextAppId), old(clock), name, path, category, kind, size, settings);
        r == u.row && applications == u.apps && nextAppId == u.nextId
    {
      var u := Upserted(applications, nextAppId, clock, name, path, category, kind, size, settings);
      UpsertKeepsTable(applications, nextAppId, clock, name, path, category, kind, size, settings);
      Tick(applications, nextAppId, backups, nextBackupId, clock);
      applications, nextAppId, clock := u.apps, u.nextId, clock + 1;
      r := u.row;
    }

    /** `get_backups`: the joined rows, newest `created_at` first, filtered by a truthy `app_id`. */
    function GetBackups(appId: Option<int>): (r: seq<BackupView>)
      reads this
      requires Valid()
      ensures forall v | v in r :: v.row in backups && Visible(applications, appId, v.row) && v.appName == AppById(applications, v.row.appId).value.name
      ensures forall b | b in backups && Visible(applications, appId, b) :: View(applications, b) in r
      ensures forall i, j | 0 <= i < j < |r| :: r[i].row.createdAt > r[j].row.createdAt
    {
      var joined := Joined(backups, applications, appId);
      ReverseNewestFirst(joined);
      Reverse(joined)
    }

    /**
      `add_backup`: the row is inserted unless its storage path is taken.
      The inserted row is then re-read through the JOIN, so when no
      application has `appId` the call gives `None` although the row stays.
     */
    method AddBackup(appId: nat, filename: string, storagePath: Path, size: nat, metadata: Metadata)
      returns (r: Option<BackupView>)
      requires Valid()
      modifies this
      ensures Valid()
      ensures applications == old(applications) && nextAppId == old(nextAppId)
      ensures StoragePathTaken(old(backups), storagePath) ==>
        r.None? && backups == old(backups) && nextBackupId == old(nextBackupId) && clock == old(clock)
      ensures !StoragePathTaken(old(backups), storagePath) ==>
        var row := NewBackup(old(nextBackupId), old(clock), appId, filename, storagePath, size, metadata);
        && backups == old(backups) + [row]
        && nextBackupId == old(nextBackupId) + 1 && clock == old(clock) + 1
        && r == (if AppById(applications, appId).Some? then Some(View(applications, row)) else None)
    {
      if StoragePathTaken(backups, storagePath) {
        return None;
      }
      var row := NewBackup(nextBackupId, clock, appId, filename, storagePath, size, metadata);
      BackupTableAppend(backups, nextBackupId, clock, row);
      Tick(applications, nextAppId, backups, nextBackupId, clock);
      backups := backups + [row];
      nextBackupId := nextBackupId + 1;
      clock := clock + 1;
      r := if AppById(applications, appId).Some? then Some(View(applications, row)) else None;
    }

    /** `update_backup_restored`: stamps the matching row, and reports success whether or not one matched. */
    method UpdateBackupRestored(id: nat) returns (ok: bool)
      requires Valid()
      modifies this
      ensures Valid() && ok
      ensures applications == old(applications) && nextAppId == old(nextAppId) && nextBackupId == old(nextBackupId)
      ensures backups == MarkRestored(old(backups), id, old(clock)) && clock == old(clock) + 1
    {
      backups := MarkRestored(backups, id, clock);
      clock := clock + 1;
      ok := true;
    }

    /** `delete_backup`: `True` iff a row with that id existed; the other rows stay as they were. */
    method DeleteBackup(id: nat) returns (removed: bool)
      requires Valid()
      modifies this
      ensures Valid()
      ensures applications == old(applications) && nextAppId == old(nextAppId) && nextBackupId == old(nextBackupId)
      ensures removed <==> exists k | 0 <= k < |old(backups)| :: old(backups)[k].id == id
      ensures backups == Without(old(backups), id)
    {
      removed := exists k | 0 <= k < |backups| :: backups[k].id == id;
      backups := Without(backups, id);
      clock := clock + 1;
      assert forall k | 0 <= k < |backups| :: backups[k] in old(backups);
    }
  }
}
