/**
  Local backup storage: archives are copied under `storage_dir/<app>/` and
  recorded in the database. The file copy is the 1 MiB chunk loop of the
  Python code, writing the stored file as it goes.
 */
module LocalStorage {
  import opened Wrappers
  import opened FileSystem
  import opened Settings
  import opened Database
  import opened Sequences

  /** `chunk_size` of the copy loop: 1 MiB. */
  const ChunkSize: nat := 1024 * 1024

  /** How far the announced size may be from the actual one, in bytes. */
  const SizeTolerance: nat := 1024

  /** `_get_storage_path`: `storage_dir / app_name / filename`. */
  function StoragePath(storageDir: Path, appName: Name, fileName: Name): (p: Path)
    ensures Below(storageDir, p) && |p| == |storageDir| + 2
    ensures Dirname(p) == storageDir + [appName] && Basename(p) == fileName
  {
    storageDir + [appName, fileName]
  }

  /** `total_size and abs(file_size - total_size) > 1024`: only a truthy announced size is checked. */
  predicate SizeMismatch(totalSize: Option<int>, fileSize: nat) {
    totalSize.Some? && totalSize.value != 0
    && (fileSize - totalSize.value > SizeTolerance || totalSize.value - fileSize > SizeTolerance)
  }

  /** `metadata.get('category', 'Development')` */
  function AppCategory(m: Metadata): string {
    if m.category.Some? then m.category.value else "Development"
  }

  /** `metadata.get('type', 'Application')` */
  function AppType(m: Metadata): string {
    if m.appType.Some? then m.appType.value else "Application"
  }

  function Min(a: nat, b: nat): nat {
    if a <= b then a else b
  }

  /**
    The callback values of the copy loop for an `n`-byte file once `copied`
    bytes are done: one value `copied / n * 100` per further non-empty chunk.
   */
  function Progress(n: nat, copied: nat): seq<real>
    requires copied <= n
    decreases n - copied
  {
    if copied == n then []
    else
      var c := Min(copied + ChunkSize, n);
      [c as real / n as real * 100.0] + Progress(n, c)
  }

  /** The callback values for copying a whole `n`-byte file. */
  function CopyProgress(n: nat): seq<real> {
    Progress(n, 0)
  }

  /**
    The values rise strictly, each above the share already copied, never
    past 100, and the last is exactly 100.
   */
  lemma {:induction false} ProgressRises(n: nat, copied: nat)
    requires copied <= n
    ensures var p := Progress(n, copied);
      && (forall k | 0 <= k < |p| :: copied as real / n as real * 100.0 < p[k] <= 100.0)
      && (forall j, k | 0 <= j < k < |p| :: p[j] < p[k])
      && (p != [] ==> p[|p| - 1] == 100.0)
      && (p == [] <==> copied == n)
    decreases n - copied
  {
    if copied < n {
      var c := Min(copied + ChunkSize, n);
      ProgressRises(n, c);
      var p := Progress(n, copied);
      var rest := Progress(n, c);
      assert p == [c as real / n as real * 100.0] + rest;
      Fraction(copied, c, n);
      forall k | 0 <= k < |p| ensures copied as real / n as real * 100.0 < p[k] <= 100.0 {
        if k > 0 { assert p[k] == rest[k - 1]; }
      }
      forall j, k | 0 <= j < k < |p| ensures p[j] < p[k] {
        assert p[k] == rest[k - 1];
        if j > 0 { assert p[j] == rest[j - 1]; }
      }
      if rest == [] {
        assert c == n;
      } else {
        assert p[|p| - 1] == rest[|rest| - 1];
      }
    }
  }

  /** Percentages of a fixed whole keep the order of the parts. */
  lemma Fraction(a: nat, b: nat, n: nat)
    requires a < b <= n
    ensures a as real / n as real * 100.0 < b as real / n as real * 100.0
    ensures b == n ==> b as real / n as real * 100.0 == 100.0
    ensures b as real / n as real * 100.0 <= 100.0
  {
    var x, y, m := a as real, b as real, n as real;
    assert x / m < y / m by {
      assert x / m * m == x && y / m * m == y;
    }
    assert y / m <= 1.0 by {
      assert y / m * m == y;
    }
  }

  /** Sum of the `size` column over the rows. */
  function TotalSize(vs: seq<BackupView>): nat {
    if vs == [] then 0 else vs[0].row.size + TotalSize(vs[1..])
  }

  lemma {:induction false} TotalSizeAppend(a: seq<BackupView>, b: seq<BackupView>)
    ensures TotalSize(a + b) == TotalSize(a) + TotalSize(b)
  {
    if a != [] {
      assert (a + b)[0] == a[0] && (a + b)[1..] == a[1..] + b;
      TotalSizeAppend(a[1..], b);
    } else {
      assert a + b == b;
    }
  }

  /** The total does not depend on the order of the rows. */
  lemma {:induction false} TotalSizeReverse(vs: seq<BackupView>)
    ensures TotalSize(Reverse(vs)) == TotalSize(vs)
  {
    if vs != [] {
      TotalSizeReverse(vs[1..]);
      assert Reverse(vs) == Reverse(vs[1..]) + [vs[0]];
      TotalSizeAppend(Reverse(vs[1..]), [vs[0]]);
      assert [vs[0]][1..] == [];
    }
  }

  /** `next((b for b in backups if b['id'] == backup_id), None)` */
  function FirstWithId(vs: seq<BackupView>, id: int): (r: Option<BackupView>)
    ensures r.Some? ==> r.value in vs && r.value.row.id == id
    ensures r.None? <==> forall k | 0 <= k < |vs| :: vs[k].row.id != id
    ensures r.Some? ==> exists k | 0 <= k < |vs| :: vs[k] == r.value && forall j | 0 <= j < k :: vs[j].row.id != id
  {
    if vs == [] then None
    else if vs[0].row.id == id then Some(vs[0])
    else
      var r := FirstWithId(vs[1..], id);
      assert r.Some? ==> exists k | 0 <= k < |vs[1..]| :: vs[1..][k] == r.value && forall j | 0 <= j < k :: vs[1..][j].row.id != id;
      if r.Some? then
        var k :| 0 <= k < |vs[1..]| && vs[1..][k] == r.value && forall j | 0 <= j < k :: vs[1..][j].row.id != id;
        assert vs[k + 1] == r.value && forall j | 0 <= j < k + 1 :: vs[j].row.id != id by {
          forall j | 0 <= j < k + 1 ensures vs[j].row.id != id {
            if j > 0 { assert vs[j] == vs[1..][j - 1]; }
          }
        }
        r
      else
        r
  }

  /** The bytes the copy loop reads: opening the destination for writing first empties it, so a file copied onto itself reads as empty. */
  function Readable(fs: FS, filePath: Path, storagePath: Path): Bytes
    requires IsFile(fs, filePath)
  {
    if filePath == storagePath then [] else fs[filePath].data
  }

  class LocalStorage {
    const storageDir: Path
    const db: Database
    const disk: Disk

    ghost predicate Valid()
      reads this, db
    {
      db.Valid()
    }

    /** The storage directory is created when the store is opened. */
    constructor (storageDir: Path, db: Database, disk: Disk)
      requires db.Valid()
      modifies disk
      ensures Valid() && this.storageDir == storageDir && this.db == db && this.disk == disk
      ensures disk.files == MakeDirs(old(disk.files), storageDir)
    {
      this.storageDir := storageDir;
      this.db := db;
      this.disk := disk;
      new;
      disk.files := MakeDirs(disk.files, storageDir);
    }

    /**
      `upload_backup`. The path must exist (otherwise `getsize` raises) and
      its size must be within the tolerance of a truthy `totalSize`; the
      application row is then upserted, with the metadata's category and
      type or their defaults, and stays even when a later step fails. A
      directory at the path cannot be opened: the storage folder has been
      made, and a file already at the storage path is removed. A directory at
      the storage path cannot be opened for writing, and the `os.remove` in
      the handler raises again, so it stays and nothing is stored. The copy loop
      writes 1 MiB at a time; `readFault`, when given, is the number of the
      read that raises, after which the partial copy is removed. A copy
      whose size differs from the source is removed. If the backup row
      cannot be added (its storage path is taken) the stored file is
      removed. `progress` is what a callback would be handed.
     */
    method UploadBackup(appName: Name, filePath: Path, metadata: Metadata, totalSize: Option<int>, readFault: Option<nat>)
      returns (r: Option<Path>, progress: seq<real>)
      requires Valid()
      modifies db, disk
      ensures Valid()
      ensures !Exists(old(disk.files), filePath) || SizeMismatch(totalSize, StatSize(old(disk.files), filePath)) ==>
        r.None? && progress == [] && disk.files == old(disk.files) && unchanged(db)
      ensures IsDir(old(disk.files), filePath) && !SizeMismatch(totalSize, 0) ==>
        var fs := old(disk.files);
        var sp := StoragePath(storageDir, appName, Basename(filePath));
        var u := Upserted(old(db.applications), old(db.nextAppId), old(db.clock), appName, filePath, AppCategory(metadata), AppType(metadata), 0, metadata.settings);
        var made := MakeDirs(fs, Dirname(sp));
        && r.None? && progress == [] && db.applications == u.apps && db.nextAppId == u.nextId && db.backups == old(db.backups)
        && disk.files == if u.row.None? then fs else if IsFile(made, sp) then made - {sp} else made
      ensures IsFile(old(disk.files), filePath) && !SizeMismatch(totalSize, Size(old(disk.files), filePath)) ==>
        var fs := old(disk.files);
        var size := Size(fs, filePath);
        var sp := StoragePath(storageDir, appName, Basename(filePath));
        var u := Upserted(old(db.applications), old(db.nextAppId), old(db.clock), appName, filePath, AppCategory(metadata), AppType(metadata), size, metadata.settings);
        var data := Readable(fs, filePath, sp);
        var blocked := IsDir(MakeDirs(fs, Dirname(sp)), sp);
        var failed := readFault.Some? && readFault.value <= |CopyProgress(|data|)|;
        && db.applications == u.apps && db.nextAppId == u.nextId
        && (u.row.None? ==> r.None? && progress == [] && disk.files == fs && db.backups == old(db.backups))
        && (u.row.Some? && blocked ==>
              r.None? && progress == [] && disk.files == MakeDirs(fs, Dirname(sp)) && db.backups == old(db.backups))
        && (u.row.Some? && !blocked && failed ==>
              r.None? && progress == CopyProgress(|data|)[..readFault.value]
              && disk.files == MakeDirs(fs, Dirname(sp)) - {sp} && db.backups == old(db.backups))
        && (u.row.Some? && !blocked && !failed && |data| != size ==>
              r.None? && progress == [] && disk.files == MakeDirs(fs, Dirname(sp)) - {sp} && db.backups == old(db.backups))
        && (u.row.Some? && !blocked && !failed && |data| == size && StoragePathTaken(old(db.backups), sp) ==>
              r.None? && progress == CopyProgress(size)
              && disk.files == MakeDirs(fs, Dirname(sp)) - {sp} && db.backups == old(db.backups))
        && (u.row.Some? && !blocked && !failed && |data| == size && !StoragePathTaken(old(db.backups), sp) ==>
              r == Some(sp) && progress == CopyProgress(size)
              && disk.files == MakeDirs(fs, Dirname(sp))[sp := File(fs[filePath].data)]
              && db.backups == old(db.backups) + [NewBackup(old(db.nextBackupId), old(db.clock) + 1, u.row.value.id, Basename(filePath), sp, size, metadata)])
    {
      progress := [];
      if !Exists(disk.files, filePath) {
        return None, [];
      }
      var fileName := Basename(filePath);
      var fileSize := StatSize(disk.files, filePath);
      if SizeMismatch(totalSize, fileSize) {
        return None, [];
      }
      var app := db.AddApplication(appName, filePath, AppCategory(metadata), AppType(metadata), fileSize, metadata.settings);
      if app.None? {
        return None, [];
      }
      if !IsFile(disk.files, filePath) {
        r := StoreFromDir(appName, filePath);
        return;
      }
      assert AppById(db.applications, app.value.id).Some?;
      r, progress := StoreCopy(app.value.id, appName, filePath, metadata, readFault);
    }

    /**
      The copy step when a directory stands at the path: `open(file_path,
      'rb')` raises after the storage folder is made, and the handler removes
      a file already at the storage path (a directory there makes `os.remove`
      raise as well, so it stays).
     */
    method StoreFromDir(appName: Name, filePath: Path) returns (r: Option<Path>)
      requires Valid()
      modifies disk
      ensures Valid() && r.None?
      ensures var made := MakeDirs(old(disk.files), Dirname(StoragePath(storageDir, appName, Basename(filePath))));
        disk.files == if IsFile(made, StoragePath(storageDir, appName, Basename(filePath))) then made - {StoragePath(storageDir, appName, Basename(filePath))} else made
    {
      var storagePath := StoragePath(storageDir, appName, Basename(filePath));
      disk.files := MakeDirs(disk.files, Dirname(storagePath));
      if IsFile(disk.files, storagePath) {
        disk.files := disk.files - {storagePath};
      }
      r := None;
    }

    /**
      The second half of `upload_backup`, once the application row exists:
      the stored copy is made under the storage path and checked, and the
      backup row is added; a failure removes the stored copy.
     */
    method StoreCopy(appId: nat, appName: Name, filePath: Path, metadata: Metadata, readFault: Option<nat>)
      returns (r: Option<Path>, progress: seq<real>)
      requires Valid() && IsFile(disk.files, filePath) && AppById(db.applications, appId).Some?
      modifies db, disk
      ensures Valid()
      ensures db.applications == old(db.applications) && db.nextAppId == old(db.nextAppId)
      ensures var fs := old(disk.files);
        var size := Size(fs, filePath);
        var sp := StoragePath(storageDir, appName, Basename(filePath));
        var data := Readable(fs, filePath, sp);
        var blocked := IsDir(MakeDirs(fs, Dirname(sp)), sp);
        var failed := readFault.Some? && readFault.value <= |CopyProgress(|data|)|;
        && (blocked ==> r.None? && progress == [] && disk.files == MakeDirs(fs, Dirname(sp)) && db.backups == old(db.backups))
        && (!blocked && failed ==>
              r.None? && progress == CopyProgress(|data|)[..readFault.value]
              && disk.files == MakeDirs(fs, Dirname(sp)) - {sp} && db.backups == old(db.backups))
        && (!blocked && !failed && |data| != size ==>
              r.None? && progress == [] && disk.files == MakeDirs(fs, Dirname(sp)) - {sp} && db.backups == old(db.backups))
        && (!blocked && !failed && |data| == size && StoragePathTaken(old(db.backups), sp) ==>
              r.None? && progress == CopyProgress(size)
              && disk.files == MakeDirs(fs, Dirname(sp)) - {sp} && db.backups == old(db.backups))
        && (!blocked && !failed && |data| == size && !StoragePathTaken(old(db.backups), sp) ==>
              r == Some(sp) && progress == CopyProgress(size)
              && disk.files == MakeDirs(fs, Dirname(sp))[sp := File(fs[filePath].data)]
              && db.backups == old(db.backups) + [NewBackup(old(db.nextBackupId), old(db.clock), appId, Basename(filePath), sp, size, metadata)])
    {
      var fileName := Basename(filePath);
      var fileSize := Size(disk.files, filePath);
      var storagePath := StoragePath(storageDir, appName, fileName);
      disk.files := MakeDirs(disk.files, Dirname(storagePath));
      ghost var staged := disk.files;
      var data := if filePath == storagePath then [] else disk.files[filePath].data;
      var failed;
      failed, progress := CopyInChunks(storagePath, data, fileSize, readFault);
      if failed {
        return None, progress;
      }
      if |data| != fileSize {
        disk.files := disk.files - {storagePath};
        return None, [];
      }
      assert data == old(disk.files)[filePath].data;
      r := RecordBackup(appId, fileName, storagePath, fileSize, metadata);
    }

    /** The backup row for a stored copy is added; when it cannot be, the copy is removed. */
    method RecordBackup(appId: nat, fileName: string, storagePath: Path, fileSize: nat, metadata: Metadata)
      returns (r: Option<Path>)
      requires Valid() && AppById(db.applications, appId).Some?
      modifies db, disk
      ensures Valid()
      ensures db.applications == old(db.applications) && db.nextAppId == old(db.nextAppId)
      ensures StoragePathTaken(old(db.backups), storagePath) ==>
        r.None? && disk.files == old(disk.files) - {storagePath} && db.backups == old(db.backups)
      ensures !StoragePathTaken(old(db.backups), storagePath) ==>
        r == Some(storagePath) && disk.files == old(disk.files)
        && db.backups == old(db.backups) + [NewBackup(old(db.nextBackupId), old(db.clock), appId, fileName, storagePath, fileSize, metadata)]
    {
      var backup := db.AddBackup(appId, fileName, storagePath, fileSize, metadata);
      if backup.None? {
        disk.files := disk.files - {storagePath};
        return None;
      }
      r := Some(storagePath);
    }

    /**
      The copy step of `upload_backup`: a directory at the destination makes
      `open(storage_path, 'wb')` raise, so nothing is written, the handler's
      `os.remove` raises as well, and the directory stays; otherwise the
      chunk loop runs.
     */
    method CopyInChunks(storagePath: Path, data: Bytes, fileSize: nat, readFault: Option<nat>)
      returns (failed: bool, progress: seq<real>)
      requires data != [] ==> |data| == fileSize
      modifies disk
      ensures failed <==> IsDir(old(disk.files), storagePath) || (readFault.Some? && readFault.value <= |CopyProgress(|data|)|)
      ensures IsDir(old(disk.files), storagePath) ==> progress == [] && disk.files == old(disk.files)
      ensures !IsDir(old(disk.files), storagePath) && failed ==>
        progress == CopyProgress(|data|)[..readFault.value] && disk.files == old(disk.files) - {storagePath}
      ensures !failed ==> progress == CopyProgress(|data|) && disk.files == old(disk.files)[storagePath := File(data)]
    {
      if IsDir(disk.files, storagePath) {
        return true, [];
      }
      failed, progress := WriteChunks(storagePath, data, fileSize, readFault);
    }

    /**
      The chunk loop, once the destination is open (emptied): `data` is
      written to it one chunk per step while the progress values are
      collected. When the read numbered `readFault` raises, the partial copy
      is removed and `failed` is set.
     */
    method WriteChunks(storagePath: Path, data: Bytes, fileSize: nat, readFault: Option<nat>)
      returns (failed: bool, progress: seq<real>)
      requires data != [] ==> |data| == fileSize
      modifies disk
      ensures failed <==> readFault.Some? && readFault.value <= |CopyProgress(|data|)|
      ensures failed ==> progress == CopyProgress(|data|)[..readFault.value] && disk.files == old(disk.files) - {storagePath}
      ensures !failed ==> progress == CopyProgress(|data|) && disk.files == old(disk.files)[storagePath := File(data)]
    {
      disk.files := disk.files[storagePath := File([])];
      var copied := 0;
      var readCount := 0;
      progress := [];
      while true
        invariant copied <= |data| && readCount == |progress|
        invariant progress + Progress(|data|, copied) == CopyProgress(|data|)
        invariant readFault.Some? ==> readCount <= readFault.value
        invariant disk.files == old(disk.files)[storagePath := File(data[..copied])]
        decreases |data| - copied
      {
        if readFault == Some(readCount) {
          ConcatPrefix(progress, Progress(|data|, copied));
          disk.files := disk.files - {storagePath};
          return true, progress;
        }
        var c := Min(copied + ChunkSize, |data|);
        var chunk := data[copied..c];
        if chunk == [] {
          break;
        }
        ghost var rest := Progress(|data|, c);
        assert Progress(|data|, copied) == [c as real / |data| as real * 100.0] + rest;
        copied := c;
        disk.files := disk.files[storagePath := File(data[..copied])];
        ghost var before := progress;
        progress := progress + [copied as real / fileSize as real * 100.0];
        ConcatAssoc(before, [c as real / |data| as real * 100.0], rest);
        readCount := readCount + 1;
      }
      assert Progress(|data|, copied) == [];
      assert data[..copied] == data;
      failed := false;
    }

    /** `download_backup`: the destination's directory is created, then the stored file is copied there. */
    method DownloadBackup(storagePath: Path, destination: Path) returns (ok: bool)
      modifies disk
      ensures ok <==> IsFile(old(disk.files), storagePath)
      ensures ok ==> disk.files == CopyFile(MakeDirs(old(disk.files), Dirname(destination)), storagePath, destination)
      ensures !ok ==> disk.files == MakeDirs(old(disk.files), Dirname(destination))
    {
      disk.files := MakeDirs(disk.files, Dirname(destination));
      if !IsFile(disk.files, storagePath) {
        return false;
      }
      disk.files := CopyFile(disk.files, storagePath, destination);
      ok := true;
    }

    /** `update_backup_restored` passes through to the database. */
    method UpdateBackupRestored(id: nat) returns (ok: bool)
      requires Valid()
      modifies db
      ensures Valid() && ok
      ensures db.backups == MarkRestored(old(db.backups), id, old(db.clock))
      ensures db.applications == old(db.applications)
    {
      ok := db.UpdateBackupRestored(id);
    }

    /** `list_backups`: every visible backup, newest first; the app name argument is not used. */
    function ListBackups(appName: Option<string>): (r: seq<BackupView>)
      reads this, db
      requires Valid()
      ensures r == db.GetBackups(None)
    {
      db.GetBackups(None)
    }

    /**
      `get_storage_usage`: the total size and the number of the listed rows.
      Backups whose application row is gone are not listed (inner JOIN), so
      they are not counted.
     */
    function StorageUsage(): (usage: (nat, nat))
      reads this, db
      requires Valid()
      ensures usage.0 == TotalSize(Joined(db.backups, db.applications, None))
      ensures usage.1 == |Joined(db.backups, db.applications, None)|
    {
      var listed := db.GetBackups(None);
      TotalSizeReverse(Joined(db.backups, db.applications, None));
      (TotalSize(listed), |listed|)
    }

    /**
      `delete_backup`: an id that no listed backup carries gives `False` and
      changes nothing. Otherwise the stored file is removed if it exists and
      the result is the database's; a directory at the stored path makes
      `os.remove` raise, which also gives `False`.
     */
    method DeleteBackup(id: int) returns (ok: bool)
      requires Valid()
      modifies db, disk
      ensures Valid()
      ensures var found := FirstWithId(old(db.GetBackups(None)), id);
        && (found.None? ==> !ok && disk.files == old(disk.files) && unchanged(db))
        && (found.Some? && IsDir(old(disk.files), found.value.row.storagePath) ==>
              !ok && disk.files == old(disk.files) && unchanged(db))
        && (found.Some? && !IsDir(old(disk.files), found.value.row.storagePath) ==>
              ok && disk.files == old(disk.files) - {found.value.row.storagePath}
              && db.backups == Without(old(db.backups), found.value.row.id) && db.applications == old(db.applications))
    {
      var found := FirstWithId(db.GetBackups(None), id);
      if found.None? {
        return false;
      }
      var sp := found.value.row.storagePath;
      if IsDir(disk.files, sp) {
        return false;
      }
      disk.files := disk.files - {sp};
      ok := db.DeleteBackup(found.value.row.id);
      assert found.value.row in old(db.backups);
    }
  }
}
