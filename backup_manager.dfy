/**
  Creating, restoring and listing backups. A backup keeps the settings whose
  path exists, records for each the running total of their sizes, copies
  them into a temporary tree laid out as `<type>/<basename(path)>/...`, zips
  that tree and hands the zip to local storage. Restore looks the backup up,
  unpacks it and copies archive folder `<type>` onto each selected setting's
  path.
 */
module BackupManager {
  import opened Wrappers
  import opened FileSystem
  import opened Settings
  import opened Database
  import opened LocalStorage
  import opened Sequences

  /** The entries of a zip file: entry name (split at `/`) to bytes. */
  type Archive = map<Path, Bytes>

  /** The zip format, which the model does not spell out: how an archive becomes bytes and how bytes are read back. */
  datatype ZipCodec = ZipCodec(pack: Archive -> Bytes, unpack: Bytes -> Option<Archive>)

  /** Reading a zip back gives the archive that was written. */
  ghost predicate RoundTrips(z: ZipCodec) {
    forall a: Archive :: z.unpack(z.pack(a)) == Some(a)
  }

  // ---------------------------------------------------------------------
  // Which settings are backed up, and their recorded sizes
  // ---------------------------------------------------------------------

  /** `[setting for setting in settings if os.path.exists(setting['path'])]` */
  function ValidSettings(fs: FS, settings: seq<Setting>): (r: seq<Setting>)
    ensures |r| <= |settings|
    ensures forall s | s in r :: s in settings && Exists(fs, s.path)
    ensures forall s | s in settings && Exists(fs, s.path) :: s in r
  {
    if settings == [] then []
    else (if Exists(fs, settings[0].path) then [settings[0]] else []) + ValidSettings(fs, settings[1..])
  }

  /** The filter keeps the original order: filtering a concatenation concatenates the filtered parts. */
  lemma {:induction false} ValidSettingsAppend(fs: FS, a: seq<Setting>, b: seq<Setting>)
    ensures ValidSettings(fs, a + b) == ValidSettings(fs, a) + ValidSettings(fs, b)
  {
    if a == [] {
      assert a + b == b;
    } else {
      var head := if Exists(fs, a[0].path) then [a[0]] else [];
      ConcatTail(a, b);
      assert ValidSettings(fs, a + b) == head + ValidSettings(fs, a[1..] + b);
      ValidSettingsAppend(fs, a[1..], b);
      ConcatAssoc(head, ValidSettings(fs, a[1..]), ValidSettings(fs, b));
    }
  }

  /** `total_size` after the first `k` valid settings (backup_manager.py:40-47). */
  ghost function RunningTotal(fs: FS, ss: seq<Setting>, k: nat): nat
    requires k <= |ss|
  {
    if k == 0 then 0 else RunningTotal(fs, ss, k - 1) + TreeSize(fs, ss[k - 1].path)
  }

  /** Recorded sizes never decrease along the list. */
  lemma {:induction false} RunningTotalGrows(fs: FS, ss: seq<Setting>, j: nat, k: nat)
    requires j <= k <= |ss|
    ensures RunningTotal(fs, ss, j) <= RunningTotal(fs, ss, k)
    decreases k - j
  {
    if j < k {
      RunningTotalGrows(fs, ss, j, k - 1);
    }
  }

  /** The `k`-th valid setting as the size loop leaves it: its `size` is the running total through it. */
  ghost function Recorded(fs: FS, valid: seq<Setting>, k: nat): Setting
    requires k < |valid|
  {
    valid[k].(size := Some(RunningTotal(fs, valid, k + 1)))
  }

  /**
    The size loop of `create_backup`: each setting's `size` becomes the
    total so far, its own size included, so the last one equals the total.
   */
  method MeasureSettings(fs: FS, valid: seq<Setting>) returns (sized: seq<Setting>, total: nat)
    ensures |sized| == |valid| && total == RunningTotal(fs, valid, |valid|)
    ensures forall k | 0 <= k < |valid| :: sized[k] == Recorded(fs, valid, k)
    ensures valid != [] ==> sized[|valid| - 1].size == Some(total)
  {
    sized := [];
    total := 0;
    var i := 0;
    while i < |valid|
      invariant i <= |valid| && |sized| == i && total == RunningTotal(fs, valid, i)
      invariant forall k | 0 <= k < i :: sized[k] == Recorded(fs, valid, k)
    {
      var n := TreeSizeOf(fs, valid[i].path);
      assert RunningTotal(fs, valid, i + 1) == total + n;
      total := total + n;
      sized := sized + [valid[i].(size := Some(total))];
      i := i + 1;
    }
  }

  // ---------------------------------------------------------------------
  // The temporary tree and the archive layout
  // ---------------------------------------------------------------------

  /** Where a setting goes in the temporary tree: `<type>/<basename(path)>`. */
  function Prefix(s: Setting): Path {
    [s.kind, Basename(s.path)]
  }

  /** Where a file `q` at or below a setting's path goes: `<type>/<basename(path)>/<relpath>`. */
  function Dst(s: Setting, q: Path): (d: Path)
    requires IsPrefix(s.path, q)
    ensures |d| >= 2 && d[..2] == Prefix(s)
  {
    Prefix(s) + q[|s.path|..]
  }

  /** The bytes of the regular files among `qs`. */
  function FilesAmong(fs: FS, qs: set<Path>): map<Path, Bytes> {
    map q | q in qs && q in fs && fs[q].File? :: fs[q].data
  }

  /** The archive entries for the files `qs` below a directory setting: each file `q` at `Dst(s, q)`. */
  function EntriesFrom(fs: FS, s: Setting, qs: set<Path>): Archive {
    Shift(FilesAmong(fs, qs), s.path, Prefix(s))
  }

  /** Every entry comes from a file of `qs` at or below the setting's path. */
  lemma EntriesFromKey(fs: FS, s: Setting, qs: set<Path>, k: Path)
    requires k in EntriesFrom(fs, s, qs)
    ensures var q := s.path + k[2..];
      q in qs && IsFile(fs, q) && IsPrefix(s.path, q) && Dst(s, q) == k && EntriesFrom(fs, s, qs)[k] == fs[q].data
  {
    var q := s.path + k[2..];
    assert q[..|s.path|] == s.path && q[|s.path|..] == k[2..];
    assert k == k[..2] + k[2..];
  }

  /** Each file of `qs` at or below the setting's path has its entry at `Dst`. */
  lemma EntriesFromAt(fs: FS, s: Setting, qs: set<Path>, q: Path)
    requires q in qs && IsFile(fs, q) && IsPrefix(s.path, q)
    ensures Dst(s, q) in EntriesFrom(fs, s, qs) && EntriesFrom(fs, s, qs)[Dst(s, q)] == fs[q].data
  {
    assert q == s.path + q[|s.path|..];
    ShiftAt(FilesAmong(fs, qs), s.path, Prefix(s), q[|s.path|..]);
  }

  /** The archive entries one setting contributes (backup_manager.py:67, 81-82, 104). */
  function Entries(fs: FS, s: Setting): Archive {
    if IsFile(fs, s.path) then map[Prefix(s) := fs[s.path].data]
    else EntriesFrom(fs, s, FilesBelow(fs, s.path))
  }

  /** The archive of a backup of `ss` when every copy succeeds. */
  function Layout(fs: FS, ss: seq<Setting>): Archive {
    if ss == [] then map[] else Layout(fs, ss[..|ss| - 1]) + Entries(fs, ss[|ss| - 1])
  }

  /** No two settings share a `<type>/<basename>` folder. */
  predicate Separate(ss: seq<Setting>) {
    forall i, j | 0 <= i < j < |ss| :: Prefix(ss[i]) != Prefix(ss[j])
  }

  /** No file at or below a setting's path is unreadable. */
  predicate AllReadable(s: Setting, unreadable: set<Path>) {
    forall q | q in unreadable :: !IsPrefix(s.path, q)
  }

  /** How many files the copy loop visits for one setting. */
  function FileCount(fs: FS, s: Setting): nat {
    if IsFile(fs, s.path) then 1 else |FilesBelow(fs, s.path)|
  }

  /** The number of files a backup of `ss` copies when every copy succeeds. */
  function TotalFiles(fs: FS, ss: seq<Setting>): nat {
    if ss == [] then 0 else TotalFiles(fs, ss[..|ss| - 1]) + FileCount(fs, ss[|ss| - 1])
  }

  /**
    `total_files` as written (backup_manager.py:58): files found by `rglob`
    below each setting path, which finds nothing below a file setting.
   */
  function TotalFilesAsWritten(fs: FS, ss: seq<Setting>): nat {
    if ss == [] then 0 else TotalFilesAsWritten(fs, ss[..|ss| - 1]) + |FilesBelow(fs, ss[|ss| - 1].path)|
  }

  /** The copy-phase callback values after `n` copied files out of `total`: `k / total * 50`. */
  function Reported(n: nat, total: nat): seq<real> {
    if total == 0 then [] else seq(n, k requires 0 <= k < n => (k + 1) as real / total as real * 50.0)
  }

  /** While no more files are copied than counted, the copy phase reports rising values up to 50. */
  lemma ReportedBounds(n: nat, total: nat)
    requires n <= total
    ensures var p := Reported(n, total);
      && |p| == n
      && (forall k | 0 <= k < n :: 0.0 < p[k] <= 50.0)
      && (forall j, k | 0 <= j < k < n :: p[j] < p[k])
  {
    var p := Reported(n, total);
    if total > 0 {
      forall k | 0 <= k < n ensures 0.0 < p[k] <= 50.0 {
        Share(k + 1, total);
      }
      forall j, k | 0 <= j < k < n ensures p[j] < p[k] {
        ShareOrder(j + 1, k + 1, total);
      }
    }
  }

  lemma Share(a: nat, total: nat)
    requires 0 < a <= total
    ensures 0.0 < a as real / total as real * 50.0 <= 50.0
  {
    var x, t := a as real, total as real;
    assert x / t * t == x;
  }

  lemma ShareOrder(a: nat, b: nat, total: nat)
    requires a < b && total > 0
    ensures a as real / total as real * 50.0 < b as real / total as real * 50.0
  {
    var x, y, t := a as real, b as real, total as real;
    assert x / t * t == x && y / t * t == y;
  }

  /** The entries of `a` in the folder `f` or below it. */
  function Part(a: Archive, f: Path): Archive {
    map k | k in a && IsPrefix(f, k) :: a[k]
  }

  /** Every entry of `a` is in `b` with the same bytes. */
  predicate Submap(a: Archive, b: Archive) {
    forall k | k in a :: k in b && a[k] == b[k]
  }

  /**
    The shape of the folder `f` while it is filled: every directory in it
    lies above some file (directories are only made for the files copied
    into them).
   */
  ghost predicate OrderlyIn(temp: FS, f: Path) {
    forall d | d in temp && temp[d].Dir? && IsPrefix(f, d) :: exists g | g in temp && temp[g].File? :: Below(d, g)
  }

  /**
    `t` differs from `temp` only in the folder `f`: outside it, every file of
    either tree is in the other with the same bytes, and nothing two levels
    down or more appears or changes.
   */
  ghost predicate Confined(temp: FS, t: FS, f: Path) {
    && (forall k | k in t && !IsPrefix(f, k) && (|k| >= 2 || t[k].File?) :: k in temp && t[k] == temp[k])
    && (forall k | k in temp && !IsPrefix(f, k) && temp[k].File? :: k in t && t[k] == temp[k])
  }

  lemma ConfinedTrans(a: FS, b: FS, c: FS, f: Path)
    requires Confined(a, b, f) && Confined(b, c, f)
    ensures Confined(a, c, f)
  {
  }

  /** Making a directory inside the two-level folder `f` changes nothing outside it. */
  lemma MakeDirsConfined(temp: FS, p: Path, f: Path)
    requires |f| == 2 && IsPrefix(f, p)
    ensures Confined(temp, MakeDirs(temp, p), f)
  {
    var t := MakeDirs(temp, p);
    forall k | k in t && k !in temp && |k| >= 2 ensures IsPrefix(f, k) {
      if k != p {
        var i :| 0 <= i < |p| && k == p[..i];
        assert k[..2] == p[..2];
      }
    }
  }

  /** Making a directory one level down changes nothing two levels down or more, and no file. */
  lemma MakeDirsShallow(temp: FS, p: Path, f: Path)
    requires |p| <= 1
    ensures Confined(temp, MakeDirs(temp, p), f)
  {
    var t := MakeDirs(temp, p);
    forall k | k in t && k !in temp ensures |k| <= 1 && t[k] == Dir {
      assert k == p || k in Ancestors(p);
    }
  }

  /** Copying a file to `dst` in the folder `f` changes nothing outside it. */
  lemma CopyIntoConfined(temp: FS, name: Name, data: Bytes, dst: Path, f: Path)
    requires IsPrefix(f, dst)
    ensures Confined(temp, CopyInto(temp, name, data, dst), f)
  {
    assert (dst + [name])[..|f|] == dst[..|f|];
  }

  lemma FilesOfMakeDirs(temp: FS, d: Path)
    ensures FilesOf(MakeDirs(temp, d)) == FilesOf(temp)
  {
  }

  lemma FilesOfWrite(temp: FS, k: Path, data: Bytes)
    ensures FilesOf(temp[k := File(data)]) == FilesOf(temp)[k := data]
  {
  }

  /** An empty folder holds no files. */
  lemma PartClear(temp: FS, f: Path)
    requires Clear(temp, f)
    ensures Part(FilesOf(temp), f) == map[]
  {
  }

  /** Writing inside a folder overrides that key of the folder's part. */
  lemma PartWrite(a: Archive, f: Path, k: Path, v: Bytes)
    requires IsPrefix(f, k)
    ensures Part(a[k := v], f) == Part(a, f)[k := v]
  {
  }

  /** A change confined to `f` leaves every other folder of the same depth as it was. */
  lemma PartOutside(temp: FS, t: FS, f: Path, g: Path)
    requires Confined(temp, t, f) && |f| == |g| && f != g
    ensures Part(FilesOf(t), g) == Part(FilesOf(temp), g)
  {
    forall k | IsPrefix(g, k) ensures !IsPrefix(f, k) {
      assert k[..|f|] == g;
    }
  }

  /** A change confined to a folder `f` that was empty adds exactly the files now in `f`. */
  lemma FilesSplit(temp: FS, t: FS, f: Path)
    requires Confined(temp, t, f) && Clear(temp, f)
    ensures FilesOf(t) == FilesOf(temp) + Part(FilesOf(t), f)
  {
  }

  /** Making the parents of `dst` and writing a file there keeps the folder `f` orderly. */
  lemma OrderlyWrite(temp: FS, dst: Path, data: Bytes, f: Path)
    requires OrderlyIn(temp, f) && dst != []
    ensures OrderlyIn(MakeDirs(temp, Dirname(dst))[dst := File(data)], f)
  {
    var t1 := MakeDirs(temp, Dirname(dst));
    var t2 := t1[dst := File(data)];
    forall d | d in t2 && t2[d].Dir? && IsPrefix(f, d) ensures exists g | g in t2 && t2[g].File? :: Below(d, g) {
      if d in temp {
        var g :| g in temp && temp[g].File? && Below(d, g);
        if g == dst { assert t2[dst].File?; } else { assert t2[g] == temp[g]; }
      } else {
        assert d == Dirname(dst) || d in Ancestors(Dirname(dst));
        assert Below(d, dst) by {
          if d == Dirname(dst) {
          } else {
            var i :| 0 <= i < |Dirname(dst)| && d == Dirname(dst)[..i];
            assert d == dst[..i];
          }
        }
      }
    }
  }

  /** A file moved below a setting lies strictly below another such file only if it did so before. */
  lemma DstBelow(s: Setting, q: Path, q2: Path)
    requires IsPrefix(s.path, q) && IsPrefix(s.path, q2) && Below(Dst(s, q), Dst(s, q2))
    ensures Below(q, q2)
  {
    var n := |s.path|;
    assert q == s.path + q[n..] && q2 == s.path + q2[n..];
    var a, b := Dst(s, q), Dst(s, q2);
    assert b[..|a|] == a;
    forall i | 0 <= i < |q| ensures q2[i] == q[i] {
      if i >= n {
        assert q[i] == a[i - n + 2] && q2[i] == b[i - n + 2];
      }
    }
  }

  /** One more visited file adds its entry. */
  lemma EntriesFromAdd(fs: FS, s: Setting, qs: set<Path>, q: Path)
    requires IsFile(fs, q) && IsPrefix(s.path, q)
    ensures EntriesFrom(fs, s, qs + {q}) == EntriesFrom(fs, s, qs)[Dst(s, q) := fs[q].data]
  {
    EntriesFromAddOld(fs, s, qs, q);
    EntriesFromAddNew(fs, s, qs, q);
  }

  /** Every entry after the visit is the new file's or was there before. */
  lemma EntriesFromAddOld(fs: FS, s: Setting, qs: set<Path>, q: Path)
    requires IsFile(fs, q) && IsPrefix(s.path, q)
    ensures var l, r := EntriesFrom(fs, s, qs + {q}), EntriesFrom(fs, s, qs)[Dst(s, q) := fs[q].data];
      forall k | k in l :: k in r && l[k] == r[k]
  {
    var l, r := EntriesFrom(fs, s, qs + {q}), EntriesFrom(fs, s, qs)[Dst(s, q) := fs[q].data];
    EntriesFromAt(fs, s, qs + {q}, q);
    forall k | k in l
      ensures k in r && l[k] == r[k]
    {
      EntriesFromKey(fs, s, qs + {q}, k);
      var q2 := s.path + k[2..];
      if q2 != q {
        EntriesFromAt(fs, s, qs, q2);
      }
    }
  }

  /** Every entry before the visit, and the new file's, is there after it. */
  lemma EntriesFromAddNew(fs: FS, s: Setting, qs: set<Path>, q: Path)
    requires IsFile(fs, q) && IsPrefix(s.path, q)
    ensures var l, r := EntriesFrom(fs, s, qs + {q}), EntriesFrom(fs, s, qs)[Dst(s, q) := fs[q].data];
      forall k | k in r :: k in l
  {
    var l, r := EntriesFrom(fs, s, qs + {q}), EntriesFrom(fs, s, qs)[Dst(s, q) := fs[q].data];
    EntriesFromAt(fs, s, qs + {q}, q);
    forall k | k in r
      ensures k in l
    {
      if k != Dst(s, q) {
        EntriesFromKey(fs, s, qs, k);
        EntriesFromAt(fs, s, qs + {q}, s.path + k[2..]);
      }
    }
  }

  /** Visiting more files only adds entries. */
  lemma EntriesFromMono(fs: FS, s: Setting, qs: set<Path>, rs: set<Path>)
    requires qs <= rs
    ensures Submap(EntriesFrom(fs, s, qs), EntriesFrom(fs, s, rs))
  {
    forall k | k in EntriesFrom(fs, s, qs)
      ensures k in EntriesFrom(fs, s, rs) && EntriesFrom(fs, s, qs)[k] == EntriesFrom(fs, s, rs)[k]
    {
      EntriesFromKey(fs, s, qs, k);
      EntriesFromAt(fs, s, rs, s.path + k[2..]);
    }
  }

  /** One more copied file appends its callback value. */
  lemma ReportedStep(n: nat, total: nat)
    requires total > 0
    ensures Reported(n + 1, total) == Reported(n, total) + [(n + 1) as real / total as real * 50.0]
  {
  }

  /** A file setting copied into a tree that has nothing in its folder yet puts exactly its entry there. */
  lemma StageFileStep(fs: FS, s: Setting, temp: FS)
    requires IsFile(fs, s.path) && Clear(temp, Prefix(s))
    ensures var t := CopyInto(MakeDirs(temp, [s.kind]), Basename(s.path), fs[s.path].data, Prefix(s));
      Part(FilesOf(t), Prefix(s)) == Entries(fs, s)
  {
    var dst := Prefix(s);
    var t1 := MakeDirs(temp, [s.kind]);
    assert dst !in t1 by {
      assert dst !in temp;
      assert dst != [s.kind] && dst !in Ancestors([s.kind]);
    }
    var data := fs[s.path].data;
    assert CopyInto(t1, Basename(s.path), data, dst) == t1[dst := File(data)];
    FilesOfMakeDirs(temp, [s.kind]);
    FilesOfWrite(t1, dst, data);
    PartClear(temp, dst);
    PartWrite(FilesOf(t1), dst, dst, data);
  }

  /**
    Both writes of a file setting stay in its folder; into an empty folder,
    making the parent adds no file there and the copy puts exactly the
    setting's entry there.
   */
  lemma FileStaged(fs: FS, s: Setting, temp: FS)
    requires IsFile(fs, s.path)
    ensures var t1 := MakeDirs(temp, [s.kind]);
      var t2 := CopyInto(t1, Basename(s.path), fs[s.path].data, Prefix(s));
      && Confined(temp, t1, Prefix(s)) && Confined(temp, t2, Prefix(s))
      && (Clear(temp, Prefix(s)) ==> Part(FilesOf(t1), Prefix(s)) == map[] && Part(FilesOf(t2), Prefix(s)) == Entries(fs, s))
  {
    var t1 := MakeDirs(temp, [s.kind]);
    var data := fs[s.path].data;
    MakeDirsShallow(temp, [s.kind], Prefix(s));
    CopyIntoConfined(t1, Basename(s.path), data, Prefix(s), Prefix(s));
    ConfinedTrans(temp, t1, CopyInto(t1, Basename(s.path), data, Prefix(s)), Prefix(s));
    if Clear(temp, Prefix(s)) {
      FilesOfMakeDirs(temp, [s.kind]);
      PartClear(temp, Prefix(s));
      StageFileStep(fs, s, temp);
    }
  }

  /** No directory stands where the next file of a directory setting is written. */
  lemma DstFree(fs: FS, s: Setting, t: FS, done: set<Path>, q: Path)
    requires Tree(fs) && OrderlyIn(t, Prefix(s))
    requires q in FilesBelow(fs, s.path)
    requires Part(FilesOf(t), Prefix(s)) == EntriesFrom(fs, s, done)
    ensures !IsDir(MakeDirs(t, Dirname(Dst(s, q))), Dst(s, q))
  {
    var d := Dst(s, q);
    if IsDir(MakeDirs(t, Dirname(d)), d) {
      assert d in t;
      var g :| g in t && t[g].File? && Below(d, g);
      assert g[..2] == d[..2];
      assert g in Part(FilesOf(t), Prefix(s));
      EntriesFromKey(fs, s, done, g);
      DstBelow(s, q, s.path + g[2..]);
    }
  }

  /**
    One more file of a directory setting copied into a tree whose folder holds
    the entries of the files `done` keeps the folder orderly and adds that
    file's entry.
   */
  lemma StageDirStep(fs: FS, s: Setting, t: FS, done: set<Path>, q: Path)
    requires Tree(fs) && OrderlyIn(t, Prefix(s))
    requires q in FilesBelow(fs, s.path)
    requires Part(FilesOf(t), Prefix(s)) == EntriesFrom(fs, s, done)
    ensures var d := Dst(s, q);
      var t2 := CopyInto(MakeDirs(t, Dirname(d)), Basename(q), fs[q].data, d);
      OrderlyIn(t2, Prefix(s)) && Part(FilesOf(t2), Prefix(s)) == EntriesFrom(fs, s, done + {q})
  {
    var d := Dst(s, q);
    var t1 := MakeDirs(t, Dirname(d));
    DstFree(fs, s, t, done, q);
    assert CopyInto(t1, Basename(q), fs[q].data, d) == t1[d := File(fs[q].data)];
    OrderlyWrite(t, d, fs[q].data, Prefix(s));
    FilesOfMakeDirs(t, Dirname(d));
    FilesOfWrite(t1, d, fs[q].data);
    PartWrite(FilesOf(t1), Prefix(s), d, fs[q].data);
    EntriesFromAdd(fs, s, done, q);
  }

  /** Making the parents of a walked file's destination and copying it there stay in the setting's folder. */
  lemma DirFileConfined(temp: FS, s: Setting, q: Path, data: Bytes)
    requires Below(s.path, q)
    ensures var t1 := MakeDirs(temp, Dirname(Dst(s, q)));
      Confined(temp, t1, Prefix(s)) && Confined(temp, CopyInto(t1, Basename(q), data, Dst(s, q)), Prefix(s))
  {
    var target := Dst(s, q);
    var t1 := MakeDirs(temp, Dirname(target));
    assert Dirname(target)[..2] == target[..2];
    MakeDirsConfined(temp, Dirname(target), Prefix(s));
    CopyIntoConfined(t1, Basename(q), data, target, Prefix(s));
    ConfinedTrans(temp, t1, CopyInto(t1, Basename(q), data, target), Prefix(s));
  }

  /**
    Copying one file `q` found below a directory setting
    (backup_manager.py:80-87): its parents are made below the setting's
    folder, the copy raises for an unreadable file, and a copied file reports
    its callback value unless `total` is zero, where that division raises.
    `stop` says that an exception ends the setting.
   */
  method StageDirFile(fs: FS, s: Setting, q: Path, unreadable: set<Path>, total: nat, temp: FS, processed: nat, progress: seq<real>)
    returns (temp': FS, processed': nat, progress': seq<real>, stop: bool)
    requires q in FilesBelow(fs, s.path)
    requires progress == Reported(processed, total)
    ensures stop <==> q in unreadable || total == 0
    ensures processed' == if q in unreadable then processed else processed + 1
    ensures progress' == Reported(processed', total)
    ensures Confined(temp, temp', Prefix(s))
    ensures q in unreadable ==> temp' == MakeDirs(temp, Dirname(Dst(s, q)))
    ensures q !in unreadable ==> temp' == CopyInto(MakeDirs(temp, Dirname(Dst(s, q))), Basename(q), fs[q].data, Dst(s, q))
  {
    var target := Dst(s, q);
    DirFileConfined(temp, s, q, fs[q].data);
    temp', processed', progress' := MakeDirs(temp, Dirname(target)), processed, progress;
    stop := true;
    if q in unreadable {
      return;
    }
    temp' := CopyInto(temp', Basename(q), fs[q].data, target);
    processed' := processed' + 1;
    if total == 0 {
      assert Reported(processed', total) == [];
      return;
    }
    ReportedStep(processed, total);
    progress' := progress' + [processed' as real / total as real * 50.0];
    stop := false;
  }

  /**
    Copying one setting into the temporary tree (backup_manager.py:63-90):
    a file goes to `<type>/<basename>`, a directory's files each to
    `<type>/<basename>/<relpath>`, in the order the walk visits them. A
    copy that raises (an unreadable file) ends this setting. Each copied file
    reports `processed / total * 50`; with `total` zero that division raises
    after the copy, which also ends the setting. Only the setting's folder
    changes; when it was empty it ends up holding some of the setting's
    entries, and all of them when its files are readable and counted.
   */
  method StageSetting(fs: FS, s: Setting, unreadable: set<Path>, total: nat, temp: FS, processed: nat, progress: seq<real>)
    returns (temp': FS, processed': nat, progress': seq<real>)
    requires Exists(fs, s.path)
    requires progress == Reported(processed, total)
    ensures processed <= processed' <= processed + FileCount(fs, s)
    ensures progress' == Reported(processed', total)
    ensures Confined(temp, temp', Prefix(s))
    ensures Tree(fs) && Clear(temp, Prefix(s)) ==> Submap(Part(FilesOf(temp'), Prefix(s)), Entries(fs, s))
    ensures Tree(fs) && Clear(temp, Prefix(s)) && AllReadable(s, unreadable) && processed + FileCount(fs, s) <= total ==>
      processed' == processed + FileCount(fs, s) && Part(FilesOf(temp'), Prefix(s)) == Entries(fs, s)
  {
    if IsFile(fs, s.path) {
      temp', processed', progress' := StageFile(fs, s, unreadable, total, temp, processed, progress);
    } else {
      temp', processed', progress' := StageDir(fs, s, unreadable, total, temp, processed, progress);
    }
  }

  /**
    A file setting (backup_manager.py:70-75): its type directory is made and
    the file copied to `<type>/<basename>`; an unreadable file raises before
    the copy, a zero `total` after it.
   */
  method StageFile(fs: FS, s: Setting, unreadable: set<Path>, total: nat, temp: FS, processed: nat, progress: seq<real>)
    returns (temp': FS, processed': nat, progress': seq<real>)
    requires IsFile(fs, s.path)
    requires progress == Reported(processed, total)
    ensures processed' == if s.path in unreadable then processed else processed + 1
    ensures progress' == Reported(processed', total)
    ensures Confined(temp, temp', Prefix(s))
    ensures Clear(temp, Prefix(s)) ==> Submap(Part(FilesOf(temp'), Prefix(s)), Entries(fs, s))
    ensures Clear(temp, Prefix(s)) && s.path !in unreadable ==> Part(FilesOf(temp'), Prefix(s)) == Entries(fs, s)
  {
    FileStaged(fs, s, temp);
    temp', processed', progress' := MakeDirs(temp, [s.kind]), processed, progress;
    if s.path in unreadable {
      return;
    }
    temp' := CopyInto(temp', Basename(s.path), fs[s.path].data, Prefix(s));
    processed' := processed' + 1;
    if total == 0 {
      return;
    }
    ReportedStep(processed, total);
    progress' := progress' + [processed' as real / total as real * 50.0];
  }

  /** The walk over a directory setting (backup_manager.py:78-87): its files one at a time, until a copy raises. */
  method StageDir(fs: FS, s: Setting, unreadable: set<Path>, total: nat, temp: FS, processed: nat, progress: seq<real>)
    returns (temp': FS, processed': nat, progress': seq<real>)
    requires progress == Reported(processed, total)
    ensures processed <= processed' <= processed + |FilesBelow(fs, s.path)|
    ensures progress' == Reported(processed', total)
    ensures Confined(temp, temp', Prefix(s))
    ensures Tree(fs) && Clear(temp, Prefix(s)) ==> Submap(Part(FilesOf(temp'), Prefix(s)), EntriesFrom(fs, s, FilesBelow(fs, s.path)))
    ensures Tree(fs) && Clear(temp, Prefix(s)) && AllReadable(s, unreadable) && processed + |FilesBelow(fs, s.path)| <= total ==>
      processed' == processed + |FilesBelow(fs, s.path)| && Part(FilesOf(temp'), Prefix(s)) == EntriesFrom(fs, s, FilesBelow(fs, s.path))
  {
    var order := Enumerate(FilesBelow(fs, s.path));
    var complete;
    temp', processed', progress', complete := StageWalk(fs, s, order, unreadable, total, temp, processed, progress);
    assert Elements(order) == FilesBelow(fs, s.path);
  }

  /**
    The files of a directory setting in the order `order` the walk visits
    them, copied one by one; `complete` says that no copy raised, and a copy
    that raises ends the walk with the files before it copied.
   */
  method StageWalk(fs: FS, s: Setting, order: seq<Path>, unreadable: set<Path>, total: nat, temp: FS, processed: nat, progress: seq<real>)
    returns (temp': FS, processed': nat, progress': seq<real>, complete: bool)
    requires forall q | q in order :: q in FilesBelow(fs, s.path)
    requires progress == Reported(processed, total)
    ensures processed <= processed' <= processed + |order|
    ensures progress' == Reported(processed', total)
    ensures Confined(temp, temp', Prefix(s))
    ensures complete ==> processed' == processed + |order|
    ensures !complete ==> exists q | q in order :: q in unreadable || total == 0
    ensures Tree(fs) && Clear(temp, Prefix(s)) ==> Submap(Part(FilesOf(temp'), Prefix(s)), EntriesFrom(fs, s, Elements(order)))
    ensures Tree(fs) && Clear(temp, Prefix(s)) && complete ==> Part(FilesOf(temp'), Prefix(s)) == EntriesFrom(fs, s, Elements(order))
  {
    ghost var good := Tree(fs) && Clear(temp, Prefix(s));
    temp', processed', progress' := temp, processed, progress;
    if good {
      PartClear(temp, Prefix(s));
      assert EntriesFrom(fs, s, {}) == map[];
    }
    var i := 0;
    ghost var done: set<Path> := {};
    while i < |order|
      invariant i <= |order| && processed' == processed + i
      invariant progress' == Reported(processed', total)
      invariant Confined(temp, temp', Prefix(s))
      invariant done == Elements(order[..i])
      invariant good ==> OrderlyIn(temp', Prefix(s)) && Part(FilesOf(temp'), Prefix(s)) == EntriesFrom(fs, s, done)
    {
      var q := order[i];
      if good {
        StageDirStep(fs, s, temp', done, q);
      }
      var stop;
      ghost var before := temp';
      temp', processed', progress', stop := StageDirFile(fs, s, q, unreadable, total, temp', processed', progress');
      ConfinedTrans(temp, before, temp', Prefix(s));
      ElementsStep(order, i);
      if stop {
        if good {
          WalkStopped(fs, s, order, i, before, temp', done, q, unreadable);
        }
        return temp', processed', progress', false;
      }
      done := done + {q};
      i := i + 1;
    }
    assert order[..i] == order;
    complete := true;
  }

  /** A walk stopped at `order[i]` holds the entries of the files it copied, all among those of `order`. */
  lemma WalkStopped(fs: FS, s: Setting, order: seq<Path>, i: nat, before: FS, after: FS, done: set<Path>, q: Path, unreadable: set<Path>)
    requires i < |order| && q == order[i] && q in FilesBelow(fs, s.path) && done == Elements(order[..i])
    requires Part(FilesOf(before), Prefix(s)) == EntriesFrom(fs, s, done)
    requires q !in unreadable ==> Part(FilesOf(after), Prefix(s)) == EntriesFrom(fs, s, done + {q})
    requires q in unreadable ==> after == MakeDirs(before, Dirname(Dst(s, q)))
    ensures Submap(Part(FilesOf(after), Prefix(s)), EntriesFrom(fs, s, Elements(order)))
  {
    ElementsStep(order, i);
    ElementsPrefix(order, i + 1);
    if q in unreadable {
      FilesOfMakeDirs(before, Dirname(Dst(s, q)));
      EntriesFromMono(fs, s, done, Elements(order));
    } else {
      EntriesFromMono(fs, s, done + {q}, Elements(order));
    }
  }

  /** The members of a sequence. */
  function Elements<T>(xs: seq<T>): set<T> {
    set x | x in xs
  }

  lemma ElementsStep<T>(xs: seq<T>, i: nat)
    requires i < |xs|
    ensures Elements(xs[..i + 1]) == Elements(xs[..i]) + {xs[i]}
  {
    assert xs[..i + 1] == xs[..i] + [xs[i]];
  }

  lemma ElementsPrefix<T>(xs: seq<T>, i: nat)
    requires i <= |xs|
    ensures Elements(xs[..i]) <= Elements(xs)
  {
    forall x | x in xs[..i] ensures x in xs {
      var j :| 0 <= j < i && xs[..i][j] == x;
      assert xs[j] == x;
    }
  }

  /** The `<type>/<basename>` folders of the settings `ss`. */
  function Folders(ss: seq<Setting>): set<Path> {
    set s | s in ss :: Prefix(s)
  }

  /** Every file of the tree, and everything two levels down or more, lies in one of the folders `folders`. */
  ghost predicate InFolders(temp: FS, folders: set<Path>) {
    forall k | k in temp && (|k| >= 2 || temp[k].File?) :: |k| >= 2 && k[..2] in folders
  }

  lemma InFoldersStep(temp: FS, t: FS, ss: seq<Setting>, i: nat)
    requires i < |ss| && InFolders(temp, Folders(ss[..i])) && Confined(temp, t, Prefix(ss[i]))
    ensures InFolders(t, Folders(ss[..i + 1]))
  {
    assert ss[..i + 1] == ss[..i] + [ss[i]];
    assert Folders(ss[..i + 1]) == Folders(ss[..i]) + {Prefix(ss[i])};
  }

  /** A tree whose contents lie in the folders of earlier settings has nothing in a separate later setting's folder. */
  lemma ClearFromSeparate(temp: FS, ss: seq<Setting>, i: nat)
    requires Separate(ss) && i < |ss| && InFolders(temp, Folders(ss[..i]))
    ensures Clear(temp, Prefix(ss[i]))
  {
    forall k | k in temp && |k| >= 2 ensures k[..2] != Prefix(ss[i]) {
      var s :| s in ss[..i] && k[..2] == Prefix(s);
      var j :| 0 <= j < i && ss[..i][j] == s;
      assert ss[j] == s;
    }
  }

  /** The file count of a prefix never exceeds that of the whole list. */
  lemma {:induction false} TotalFilesPrefix(fs: FS, ss: seq<Setting>, i: nat)
    requires i <= |ss|
    ensures TotalFiles(fs, ss[..i]) <= TotalFiles(fs, ss)
    decreases |ss| - i
  {
    if i < |ss| {
      TotalFilesPrefix(fs, ss, i + 1);
      assert ss[..i + 1][..i] == ss[..i];
    } else {
      assert ss[..i] == ss;
    }
  }

  /** Extending the prefix by one setting adds its file count and its entries. */
  lemma PrefixStep(fs: FS, ss: seq<Setting>, i: nat)
    requires i < |ss|
    ensures TotalFiles(fs, ss[..i + 1]) == TotalFiles(fs, ss[..i]) + FileCount(fs, ss[i])
    ensures Layout(fs, ss[..i + 1]) == Layout(fs, ss[..i]) + Entries(fs, ss[i])
  {
    assert ss[..i + 1][..i] == ss[..i];
  }

  /** The paths form a proper tree, the folders are distinct and `total` covers every file. */
  ghost predicate Sound(fs: FS, valid: seq<Setting>, total: nat) {
    Tree(fs) && Separate(valid) && TotalFiles(fs, valid) <= total
  }

  /** Sound, and nothing is unreadable. */
  ghost predicate Clean(fs: FS, valid: seq<Setting>, unreadable: set<Path>, total: nat) {
    Sound(fs, valid, total) && forall s | s in valid :: AllReadable(s, unreadable)
  }

  /**
    The folder of each of the first `n` settings holds only entries of that
    setting, and all of them when the setting's files are readable: a setting
    that fails part-way costs only its own files.
   */
  ghost predicate PartsWithin(fs: FS, valid: seq<Setting>, unreadable: set<Path>, a: Archive, n: nat)
    requires n <= |valid|
  {
    forall j | 0 <= j < n ::
      && Submap(Part(a, Prefix(valid[j])), Entries(fs, valid[j]))
      && (AllReadable(valid[j], unreadable) ==> Part(a, Prefix(valid[j])) == Entries(fs, valid[j]))
  }

  /** Copying setting `i` confined to its own folder keeps the earlier settings' folders. */
  lemma PartsStep(fs: FS, valid: seq<Setting>, unreadable: set<Path>, temp: FS, t: FS, i: nat)
    requires i < |valid| && Separate(valid)
    requires PartsWithin(fs, valid, unreadable, FilesOf(temp), i)
    requires Confined(temp, t, Prefix(valid[i]))
    requires Submap(Part(FilesOf(t), Prefix(valid[i])), Entries(fs, valid[i]))
    requires AllReadable(valid[i], unreadable) ==> Part(FilesOf(t), Prefix(valid[i])) == Entries(fs, valid[i])
    ensures PartsWithin(fs, valid, unreadable, FilesOf(t), i + 1)
  {
    forall j | 0 <= j < i + 1
      ensures && Submap(Part(FilesOf(t), Prefix(valid[j])), Entries(fs, valid[j]))
              && (AllReadable(valid[j], unreadable) ==> Part(FilesOf(t), Prefix(valid[j])) == Entries(fs, valid[j]))
    {
      if j < i {
        PartOutside(temp, t, Prefix(valid[i]), Prefix(valid[j]));
        assert Part(FilesOf(t), Prefix(valid[j])) == Part(FilesOf(temp), Prefix(valid[j]));
      }
    }
  }

  /**
    The copy phase of `create_backup` (backup_manager.py:58-90): the
    settings are copied one after another into an empty temporary tree,
    `processed` counting the copied files against `total`. Everything lands
    in the settings' folders. When the paths form a proper tree, the folders
    are distinct and `total` covers every file, each folder holds only its
    setting's entries and all of them when that setting is readable, however
    the other settings fared; with nothing unreadable the tree holds exactly
    the layout of the backup and every file was counted.
   */
  method StageAll(fs: FS, valid: seq<Setting>, unreadable: set<Path>, total: nat)
    returns (temp: FS, processed: nat, progress: seq<real>)
    requires forall s | s in valid :: Exists(fs, s.path)
    ensures processed <= TotalFiles(fs, valid)
    ensures progress == Reported(processed, total)
    ensures InFolders(temp, Folders(valid))
    ensures Sound(fs, valid, total) ==> PartsWithin(fs, valid, unreadable, FilesOf(temp), |valid|)
    ensures Clean(fs, valid, unreadable, total) ==> processed == TotalFiles(fs, valid) && FilesOf(temp) == Layout(fs, valid)
  {
    temp, processed, progress := map[], 0, [];
    var i := 0;
    while i < |valid|
      invariant i <= |valid| && processed <= TotalFiles(fs, valid[..i])
      invariant progress == Reported(processed, total)
      invariant InFolders(temp, Folders(valid[..i]))
      invariant Sound(fs, valid, total) ==> PartsWithin(fs, valid, unreadable, FilesOf(temp), i)
      invariant Clean(fs, valid, unreadable, total) ==> processed == TotalFiles(fs, valid[..i]) && FilesOf(temp) == Layout(fs, valid[..i])
    {
      temp, processed, progress := StageNext(fs, valid, i, unreadable, total, temp, processed, progress);
      i := i + 1;
    }
    assert valid[..i] == valid;
  }

  /** One turn of the copy phase: setting `i` copied after the first `i`. */
  method StageNext(fs: FS, valid: seq<Setting>, i: nat, unreadable: set<Path>, total: nat, temp: FS, processed: nat, progress: seq<real>)
    returns (temp': FS, processed': nat, progress': seq<real>)
    requires i < |valid| && Exists(fs, valid[i].path)
    requires processed <= TotalFiles(fs, valid[..i])
    requires progress == Reported(processed, total)
    requires InFolders(temp, Folders(valid[..i]))
    requires Sound(fs, valid, total) ==> PartsWithin(fs, valid, unreadable, FilesOf(temp), i)
    requires Clean(fs, valid, unreadable, total) ==> processed == TotalFiles(fs, valid[..i]) && FilesOf(temp) == Layout(fs, valid[..i])
    ensures processed' <= TotalFiles(fs, valid[..i + 1])
    ensures progress' == Reported(processed', total)
    ensures InFolders(temp', Folders(valid[..i + 1]))
    ensures Sound(fs, valid, total) ==> PartsWithin(fs, valid, unreadable, FilesOf(temp'), i + 1)
    ensures Clean(fs, valid, unreadable, total) ==> processed' == TotalFiles(fs, valid[..i + 1]) && FilesOf(temp') == Layout(fs, valid[..i + 1])
  {
    var s := valid[i];
    ghost var sound := Sound(fs, valid, total);
    PrefixStep(fs, valid, i);
    if sound {
      ClearFromSeparate(temp, valid, i);
      TotalFilesPrefix(fs, valid, i + 1);
    }
    temp', processed', progress' := StageSetting(fs, s, unreadable, total, temp, processed, progress);
    InFoldersStep(temp, temp', valid, i);
    if sound {
      PartsStep(fs, valid, unreadable, temp, temp', i);
      if Clean(fs, valid, unreadable, total) {
        assert s in valid;
        FilesSplit(temp, temp', Prefix(s));
      }
    }
  }

  /** The zip's file name: `<app_name>_<timestamp>.zip`. */
  function ZipName(appName: Name, timestamp: string): Name {
    appName + "_" + timestamp + ".zip"
  }

  /** The callback values of a backup: the copy phase, 75 once zipped, 100 once stored. */
  function BackupProgress(copied: nat, total: nat, zipped: bool, ok: bool): seq<real> {
    Reported(copied, total) + (if zipped then [75.0] else []) + (if ok then [100.0] else [])
  }

  /**
    With no more files copied than counted, a backup's callback values rise
    strictly, stay in (0, 100], and a stored backup ends at 100.
   */
  lemma BackupProgressRises(copied: nat, total: nat, zipped: bool, ok: bool)
    requires copied <= total && (ok ==> zipped)
    ensures var p := BackupProgress(copied, total, zipped, ok);
      && (forall k | 0 <= k < |p| :: 0.0 < p[k] <= 100.0)
      && (forall j, k | 0 <= j < k < |p| :: p[j] < p[k])
      && (ok ==> p[|p| - 1] == 100.0)
  {
    ReportedBounds(copied, total);
    var r := Reported(copied, total);
    var p := BackupProgress(copied, total, zipped, ok);
    assert |r| == copied;
    forall k | 0 <= k < |p| ensures 0.0 < p[k] <= 100.0 && (k < copied ==> p[k] == r[k] && p[k] <= 50.0) && (k >= copied ==> p[k] >= 75.0) {
      if k < copied {
        assert p[k] == r[k];
      }
    }
  }

  /**
    Downloading a stored zip over a fresh temporary file `t`
    (backup_manager.py:160-168): the parents of `t` appear only as
    directories, so the zip is found exactly when it was a file before, and
    the temporary file then holds its bytes.
   */
  lemma TempDownload(fs: FS, sp: Path, t: Path)
    ensures var fs1 := MakeDirs(fs[t := File([])], Dirname(t));
      && (IsFile(fs1, sp) <==> IsFile(fs[t := File([])], sp))
      && (IsFile(fs1, sp) ==> IsFile(CopyFile(fs1, sp, t), t) && CopyFile(fs1, sp, t)[t].data == fs1[sp].data)
  {
    var fs1 := MakeDirs(fs[t := File([])], Dirname(t));
    assert t in fs1 && fs1[t] == File([]);
  }

  /** What storing a zip leaves behind: the result, the files, whether the database is untouched, and its rows. */
  datatype Stored = Stored(ok: bool, files: FS, untouched: bool, apps: seq<Application>, nextAppId: nat, backups: seq<Backup>)

  /**
    The end of `create_backup` on values (backup_manager.py:100-144 with
    `upload_backup`, local_storage.py:26-93): the zip `packed` written at
    `backupPath` is uploaded under the announced size `totalSize` and
    removed afterwards. A size outside the tolerance touches no row;
    otherwise the application row is upserted, the stored copy is made and
    checked, and the backup row is added exactly when the copy is complete
    and its storage path is free. A failed copy is removed; a directory
    standing at the storage path stays, and nothing is stored.
   */
  function Upload(fs: FS, apps: seq<Application>, nextAppId: nat, clock: nat, backups: seq<Backup>, nextBackupId: nat,
                  storageDir: Path, appName: Name, backupPath: Path, packed: Bytes, metadata: Metadata,
                  totalSize: nat, readFault: Option<nat>): Stored
  {
    var fz := fs[backupPath := File(packed)];
    var sp := StoragePath(storageDir, appName, Basename(backupPath));
    if SizeMismatch(Some(totalSize), |packed|) then Stored(false, fz - {backupPath}, true, apps, nextAppId, backups)
    else
      var u := Upserted(apps, nextAppId, clock, appName, backupPath, AppCategory(metadata), AppType(metadata), |packed|, metadata.settings);
      var data := Readable(fz, backupPath, sp);
      var failed := readFault.Some? && readFault.value <= |CopyProgress(|data|)|;
      if u.row.Some? && IsDir(MakeDirs(fz, Dirname(sp)), sp) then
        Stored(false, MakeDirs(fz, Dirname(sp)) - {backupPath}, false, u.apps, u.nextId, backups)
      else if u.row.Some? && !failed && |data| == |packed| && !StoragePathTaken(backups, sp) then
        Stored(true, MakeDirs(fz, Dirname(sp))[sp := File(packed)] - {backupPath}, false, u.apps, u.nextId,
               backups + [NewBackup(nextBackupId, clock + 1, u.row.value.id, Basename(backupPath), sp, |packed|, metadata)])
      else
        Stored(false, (if u.row.Some? then MakeDirs(fz, Dirname(sp)) - {sp} else fz) - {backupPath}, false, u.apps, u.nextId, backups)
  }

  /**
    Storing a zip never leaves it behind; a stored backup appends exactly
    one row, for the zip's name, storage path, size and metadata, and its
    bytes are at the storage path (unless that is the zip's own path); a
    failed one adds no row. The zip's size is checked against the
    announced size first, so a stored backup was within the tolerance. A
    directory at the storage path is never replaced: the upload fails and
    the directory stays.
   */
  lemma UploadOutcome(fs: FS, apps: seq<Application>, nextAppId: nat, clock: nat, backups: seq<Backup>, nextBackupId: nat,
                      storageDir: Path, appName: Name, backupPath: Path, packed: Bytes, metadata: Metadata,
                      totalSize: nat, readFault: Option<nat>)
    ensures var o := Upload(fs, apps, nextAppId, clock, backups, nextBackupId, storageDir, appName, backupPath, packed, metadata, totalSize, readFault);
      var sp := StoragePath(storageDir, appName, Basename(backupPath));
      && backupPath !in o.files
      && (o.ok ==>
            && !SizeMismatch(Some(totalSize), |packed|) && !StoragePathTaken(backups, sp)
            && |o.backups| == |backups| + 1 && o.backups[..|backups|] == backups
            && var b := o.backups[|backups|];
               && b.id == nextBackupId && b.filename == Basename(backupPath) && b.storagePath == sp
               && b.size == |packed| && b.metadata == metadata
               && (sp != backupPath ==> sp in o.files && o.files[sp] == File(packed)))
      && (!o.ok ==> o.backups == backups)
      && (IsDir(fs, sp) && sp != backupPath ==> !o.ok && sp in o.files && o.files[sp] == Dir)
  {
    var o := Upload(fs, apps, nextAppId, clock, backups, nextBackupId, storageDir, appName, backupPath, packed, metadata, totalSize, readFault);
    if o.ok {
      assert o.backups[..|backups|] == backups;
    }
  }

  /**
    The backup manager: a directory the zip is written to before it is
    handed to local storage, the storage it hands it to, and the machine's
    filesystem, which it shares with that storage.
   */
  class BackupManager {
    const backupDir: Path
    const storage: LocalStorage

    ghost predicate Valid()
      reads this, storage, storage.db
    {
      storage.Valid()
    }

    /** The backup directory is created when the manager is made (backup_manager.py:16-19). */
    constructor (backupDir: Path, storage: LocalStorage)
      requires storage.Valid()
      modifies storage.disk
      ensures Valid() && this.backupDir == backupDir && this.storage == storage
      ensures storage.disk.files == MakeDirs(old(storage.disk.files), backupDir)
    {
      this.backupDir := backupDir;
      this.storage := storage;
      new;
      storage.disk.files := MakeDirs(storage.disk.files, backupDir);
    }

    /**
      `create_backup` (backup_manager.py:21-144). The settings whose path
      exists are kept; with none the call gives `False` and touches nothing
      (the corrected behaviour, see `NoSettingsOutcome`). Their sizes are
      recorded as running totals, their files copied into a temporary tree
      (`copied` counts them), and with nothing copied the call gives
      `False`. Otherwise the tree is zipped to
      `backup_dir/<app>_<timestamp>.zip` and uploaded with the total size as
      the announced size; the zip file is removed in every case. `archive`
      is what was zipped: exactly the layout of the settings when the paths
      form a proper tree, the folders are distinct and every file is
      readable. The copy phase counts with `TotalFiles` (the corrected count,
      see `CountFileSettings`).
     */
    method CreateBackup(appName: Name, settings: seq<Setting>, timestamp: string, zip: ZipCodec, unreadable: set<Path>, readFault: Option<nat>)
      returns (ok: bool, progress: seq<real>, recorded: seq<Setting>, ghost copied: nat, ghost archive: Archive)
      requires Valid()
      modifies storage.db, storage.disk
      ensures Valid()
      ensures var fs := old(storage.disk.files);
        var valid := ValidSettings(fs, settings);
        var backupPath := backupDir + [ZipName(appName, timestamp)];
        && (valid == [] ==> !ok && progress == [] && recorded == [] && storage.disk.files == fs && unchanged(storage.db))
        && (valid != [] ==>
              && |recorded| == |valid| && (forall k | 0 <= k < |valid| :: recorded[k] == Recorded(fs, valid, k))
              && copied <= TotalFiles(fs, valid)
              && progress == BackupProgress(copied, TotalFiles(fs, valid), copied > 0, ok)
              && backupPath !in storage.disk.files
              && (forall k | k in archive :: |k| >= 2 && k[..2] in Folders(valid))
              && (Tree(fs) && Separate(valid) ==> PartsWithin(fs, valid, unreadable, archive, |valid|))
              && (Tree(fs) && Separate(valid) && (forall s | s in valid :: AllReadable(s, unreadable)) ==>
                    copied == TotalFiles(fs, valid) && archive == Layout(fs, valid))
              && (copied == 0 ==> !ok && storage.disk.files == fs - {backupPath} && unchanged(storage.db))
              && (copied > 0 ==>
                    var totalSize := RunningTotal(fs, valid, |valid|);
                    var o := Upload(fs, old(storage.db.applications), old(storage.db.nextAppId), old(storage.db.clock),
                                    old(storage.db.backups), old(storage.db.nextBackupId), storage.storageDir, appName, backupPath,
                                    zip.pack(archive), Metadata(timestamp, recorded, appName, totalSize, None, None), totalSize, readFault);
                    && ok == o.ok && storage.disk.files == o.files
                    && (o.untouched ==> unchanged(storage.db))
                    && storage.db.applications == o.apps && storage.db.nextAppId == o.nextAppId && storage.db.backups == o.backups))
    {
      var fs := storage.disk.files;
      var valid := ValidSettings(fs, settings);
      copied, archive := 0, map[];
      if valid == [] {
        ok, progress, recorded := false, [], [];
        return;
      }
      var totalSize;
      recorded, totalSize := MeasureSettings(fs, valid);
      var name := ZipName(appName, timestamp);
      var backupPath := backupDir + [name];
      var total := TotalFiles(fs, valid);
      var temp, processed;
      temp, processed, progress := StageAll(fs, valid, unreadable, total);
      copied, archive := processed, FilesOf(temp);
      if processed == 0 {
        storage.disk.files := storage.disk.files - {backupPath};
        ok := false;
        return;
      }
      var entries := FilesOf(temp);
      var packed := zip.pack(entries);
      progress := progress + [75.0];
      assert progress == BackupProgress(copied, total, true, false);
      ok := StoreZip(appName, name, packed, Metadata(timestamp, recorded, appName, totalSize, None, None), totalSize, readFault);
      assert zip.pack(archive) == packed;
      if ok {
        progress := progress + [100.0];
        assert BackupProgress(copied, total, true, ok) == BackupProgress(copied, total, true, false) + [100.0];
      }
    }

    /**
      The end of `create_backup` (backup_manager.py:100-144): the zip bytes
      are written to `backupPath`, uploaded under the announced size
      `totalSize`, and the zip file is removed whatever happened.
     */
    method StoreZip(appName: Name, name: Name, packed: Bytes, metadata: Metadata, totalSize: nat, readFault: Option<nat>)
      returns (ok: bool)
      requires Valid()
      modifies storage.db, storage.disk
      ensures Valid()
      ensures backupDir + [name] !in storage.disk.files
      ensures var o := Upload(old(storage.disk.files), old(storage.db.applications), old(storage.db.nextAppId), old(storage.db.clock),
                              old(storage.db.backups), old(storage.db.nextBackupId), storage.storageDir, appName, backupDir + [name],
                              packed, metadata, totalSize, readFault);
        && ok == o.ok && storage.disk.files == o.files
        && (o.untouched ==> unchanged(storage.db))
        && storage.db.applications == o.apps && storage.db.nextAppId == o.nextAppId && storage.db.backups == o.backups
    {
      var backupPath := backupDir + [name];
      assert Basename(backupPath) == name;
      storage.disk.files := storage.disk.files[backupPath := File(packed)];
      var stored, uploadProgress := storage.UploadBackup(appName, backupPath, metadata, Some(totalSize), readFault);
      ok := stored.Some?;
      storage.disk.files := storage.disk.files - {backupPath};
    }

    /**
      `restore_backup` (backup_manager.py:146-252). The backup is looked up
      among the listed ones; an unknown id gives `False` before anything is
      written. A temporary file `tempFile` is created and the stored zip
      downloaded into it (25); an unreadable zip gives `False` and leaves the
      temporary file. The archive is extracted (50) and each selected setting
      of the backup's metadata is restored from archive folder `<type>`,
      reporting `50 + i / n * 50` for the `i`-th of `n` settings. The row is
      marked restored and the temporary file removed.
     */
    method RestoreBackup(backupId: int, selected: Option<seq<Path>>, tempFile: Path, zip: ZipCodec)
      returns (ok: bool, progress: seq<real>)
      requires Valid()
      modifies storage.db, storage.disk
      ensures Valid()
      ensures var found := FirstWithId(old(storage.ListBackups(None)), backupId);
        && (found.None? ==> !ok && progress == [] && storage.disk.files == old(storage.disk.files) && unchanged(storage.db))
        && (found.Some? ==>
              var b := found.value.row;
              var ss := b.metadata.settings;
              var fs1 := MakeDirs(old(storage.disk.files)[tempFile := File([])], Dirname(tempFile));
              && (!IsFile(fs1, b.storagePath) ==> !ok && progress == [] && storage.disk.files == fs1 && unchanged(storage.db))
              && (IsFile(fs1, b.storagePath) ==>
                    var fs2 := CopyFile(fs1, b.storagePath, tempFile);
                    var unpacked := zip.unpack(fs1[b.storagePath].data);
                    && (unpacked.None? ==> !ok && progress == [25.0] && storage.disk.files == fs2 && unchanged(storage.db))
                    && (unpacked.Some? ==>
                          && ok && progress == [25.0, 50.0] + RestoreShares(ss, selected, |ss|)
                          && storage.disk.files == Restored(Unpacked(unpacked.value), fs2, ss, selected, |ss|) - {tempFile}
                          && storage.db.backups == MarkRestored(old(storage.db.backups), b.id, old(storage.db.clock))
                          && storage.db.applications == old(storage.db.applications))))
    {
      var found := FirstWithId(storage.ListBackups(None), backupId);
      progress := [];
      if found.None? {
        return false, [];
      }
      ok, progress := RestoreRow(found.value.row, selected, tempFile, zip);
    }

    /**
      `restore_backup` once the row `b` is found (backup_manager.py:159-247):
      download into the temporary file, then extract and restore.
     */
    method RestoreRow(b: Backup, selected: Option<seq<Path>>, tempFile: Path, zip: ZipCodec)
      returns (ok: bool, progress: seq<real>)
      requires Valid()
      modifies storage.db, storage.disk
      ensures Valid()
      ensures var ss := b.metadata.settings;
        var fs1 := MakeDirs(old(storage.disk.files)[tempFile := File([])], Dirname(tempFile));
        && (!IsFile(fs1, b.storagePath) ==> !ok && progress == [] && storage.disk.files == fs1 && unchanged(storage.db))
        && (IsFile(fs1, b.storagePath) ==>
              var fs2 := CopyFile(fs1, b.storagePath, tempFile);
              var unpacked := zip.unpack(fs1[b.storagePath].data);
              && (unpacked.None? ==> !ok && progress == [25.0] && storage.disk.files == fs2 && unchanged(storage.db))
              && (unpacked.Some? ==>
                    && ok && progress == [25.0, 50.0] + RestoreShares(ss, selected, |ss|)
                    && storage.disk.files == Restored(Unpacked(unpacked.value), fs2, ss, selected, |ss|) - {tempFile}
                    && storage.db.backups == MarkRestored(old(storage.db.backups), b.id, old(storage.db.clock))
                    && storage.db.applications == old(storage.db.applications)))
    {
      TempDownload(storage.disk.files, b.storagePath, tempFile);
      storage.disk.files := storage.disk.files[tempFile := File([])];
      var downloaded := storage.DownloadBackup(b.storagePath, tempFile);
      if !downloaded {
        return false, [];
      }
      var rest;
      ok, rest := ExtractAndRestore(b, tempFile, selected, zip);
      progress := [25.0] + rest;
    }

    /**
      The part of `restore_backup` after the download (backup_manager.py:178-247):
      the temporary file is unpacked (50), the selected settings restored, the
      row marked restored and the temporary file removed; an unreadable zip
      changes nothing.
     */
    method ExtractAndRestore(b: Backup, tempFile: Path, selected: Option<seq<Path>>, zip: ZipCodec)
      returns (ok: bool, progress: seq<real>)
      requires Valid() && IsFile(storage.disk.files, tempFile)
      modifies storage.db, storage.disk
      ensures Valid()
      ensures var unpacked := zip.unpack(old(storage.disk.files)[tempFile].data);
        var ss := b.metadata.settings;
        && (unpacked.None? ==> !ok && progress == [] && storage.disk.files == old(storage.disk.files) && unchanged(storage.db))
        && (unpacked.Some? ==>
              && ok && progress == [50.0] + RestoreShares(ss, selected, |ss|)
              && storage.disk.files == Restored(Unpacked(unpacked.value), old(storage.disk.files), ss, selected, |ss|) - {tempFile}
              && storage.db.backups == MarkRestored(old(storage.db.backups), b.id, old(storage.db.clock))
              && storage.db.applications == old(storage.db.applications))
    {
      var unpacked := zip.unpack(storage.disk.files[tempFile].data);
      if unpacked.None? {
        return false, [];
      }
      var ex := Unpacked(unpacked.value);
      var shares := RestoreSettings(ex, b.metadata.settings, selected);
      progress := [50.0] + shares;
      var marked := storage.UpdateBackupRestored(b.id);
      storage.disk.files := storage.disk.files - {tempFile};
      ok := true;
    }

    /** The restore loop (backup_manager.py:203-234): each selected setting in turn, with its callback value. */
    method RestoreSettings(ex: FS, ss: seq<Setting>, selected: Option<seq<Path>>) returns (progress: seq<real>)
      modifies storage.disk
      ensures storage.disk.files == Restored(ex, old(storage.disk.files), ss, selected, |ss|)
      ensures progress == RestoreShares(ss, selected, |ss|)
    {
      progress := [];
      var i := 0;
      while i < |ss|
        invariant i <= |ss|
        invariant storage.disk.files == Restored(ex, old(storage.disk.files), ss, selected, i)
        invariant progress == RestoreShares(ss, selected, i)
      {
        var s := ss[i];
        if Selected(selected, s.path) {
          RestoreSetting(ex, s);
          progress := progress + [50.0 + (i + 1) as real / |ss| as real * 50.0];
        }
        i := i + 1;
      }
    }

    /**
      Restoring one setting from the extracted tree `ex`
      (backup_manager.py:212-231): a file at `<type>` is copied to the
      setting's path after its directory is made; a directory at `<type>` is
      copied onto the path, merging (a file standing at the path makes
      `copytree` raise, which is caught and changes nothing); otherwise
      nothing happens.
     */
    method RestoreSetting(ex: FS, s: Setting)
      modifies storage.disk
      ensures storage.disk.files == RestoreOne(ex, old(storage.disk.files), s)
    {
      var source := [s.kind];
      if IsFile(ex, source) {
        storage.disk.files := MakeDirs(storage.disk.files, Dirname(s.path));
        storage.disk.files := CopyInto(storage.disk.files, s.kind, ex[source].data, s.path);
      } else if IsDir(ex, source) {
        if !IsFile(storage.disk.files, s.path) {
          storage.disk.files := CopyTreeFrom(ex, source, storage.disk.files, s.path);
        }
      }
    }

    /**
      `list_backups` (backup_manager.py:254-279): every listed backup, in the
      listed order, grouped by application name; a truthy `appName` keeps
      only its own group, present (possibly empty) even when it has no
      backups.
     */
    method ListBackups(appName: Option<string>) returns (r: map<string, seq<Listing>>)
      requires Valid()
      ensures var vs := storage.ListBackups(None);
        && (appName.Some? && appName.value != "" ==> r == map[appName.value := GroupOf(vs, appName.value)])
        && (appName.None? || appName.value == "" ==> forall a :: (a in r <==> GroupOf(vs, a) != []) && (a in r ==> r[a] == GroupOf(vs, a)))
    {
      var vs := storage.ListBackups(appName);
      var organized: map<string, seq<Listing>> := map[];
      var i := 0;
      while i < |vs|
        invariant i <= |vs| && organized == Grouped(vs[..i])
      {
        var v := vs[i];
        var group := if v.appName in organized then organized[v.appName] else [];
        GroupedStep(vs, i);
        organized := organized[v.appName := group + [ListingOf(v)]];
        i := i + 1;
      }
      assert vs[..i] == vs;
      GroupedIsFilter(vs);
      if appName.Some? && appName.value != "" {
        r := map[appName.value := if appName.value in organized then organized[appName.value] else []];
      } else {
        r := organized;
      }
    }

    /**
      `delete_backup` (backup_manager.py:281-287), passed through to storage:
      an unknown id or a directory at the stored path gives `False` and
      changes nothing; otherwise the stored file and the row go.
     */
    method DeleteBackup(id: int) returns (ok: bool)
      requires Valid()
      modifies storage.db, storage.disk
      ensures Valid()
      ensures var found := FirstWithId(old(storage.db.GetBackups(None)), id);
        && (found.None? ==> !ok && storage.disk.files == old(storage.disk.files) && unchanged(storage.db))
        && (found.Some? && IsDir(old(storage.disk.files), found.value.row.storagePath) ==>
              !ok && storage.disk.files == old(storage.disk.files) && unchanged(storage.db))
        && (found.Some? && !IsDir(old(storage.disk.files), found.value.row.storagePath) ==>
              && ok && storage.disk.files == old(storage.disk.files) - {found.value.row.storagePath}
              && storage.db.backups == Without(old(storage.db.backups), found.value.row.id)
              && storage.db.applications == old(storage.db.applications))
    {
      ok := storage.DeleteBackup(id);
    }
  }

  // ---------------------------------------------------------------------
  // Restore
  // ---------------------------------------------------------------------

  /** Every proper prefix of an entry name: the directories extraction creates, the extraction directory itself included. */
  function Parents(names: set<Path>): set<Path> {
    set k, i | k in names && 0 <= i < |k| :: k[..i]
  }

  /** `zipf.extractall(extract_dir)` viewed from `extract_dir`: every entry a file, every parent of an entry a directory. */
  function Unpacked(a: Archive): (ex: FS)
    ensures forall k | k in a :: k in ex && ex[k] == File(a[k])
    ensures forall k | k in ex && k !in a :: ex[k] == Dir && exists n | n in a :: Below(k, n)
  {
    map q | q in a.Keys + Parents(a.Keys) :: if q in a then File(a[q]) else Dir
  }

  /** `selected_files` truthy means a restricted restore; then only the listed paths are restored. */
  predicate Selected(selected: Option<seq<Path>>, p: Path) {
    selected.None? || selected.value == [] || p in selected.value
  }

  /** What restoring one setting from extracted tree `ex` does to `fs` (backup_manager.py:212-231). */
  function RestoreOne(ex: FS, fs: FS, s: Setting): FS {
    var source := [s.kind];
    if IsFile(ex, source) then CopyInto(MakeDirs(fs, Dirname(s.path)), s.kind, ex[source].data, s.path)
    else if IsDir(ex, source) then (if IsFile(fs, s.path) then fs else CopyTreeFrom(ex, source, fs, s.path))
    else fs
  }

  /** The filesystem after the first `k` settings of `ss` were considered for restore. */
  function Restored(ex: FS, fs: FS, ss: seq<Setting>, selected: Option<seq<Path>>, k: nat): FS
    requires k <= |ss|
  {
    if k == 0 then fs
    else
      var before := Restored(ex, fs, ss, selected, k - 1);
      if Selected(selected, ss[k - 1].path) then RestoreOne(ex, before, ss[k - 1]) else before
  }

  /** The restore-phase callback values after the first `k` settings of `ss`: `50 + i / |ss| * 50` for each selected `i`-th. */
  function RestoreShares(ss: seq<Setting>, selected: Option<seq<Path>>, k: nat): seq<real>
    requires k <= |ss|
  {
    if k == 0 then []
    else RestoreShares(ss, selected, k - 1) + (if Selected(selected, ss[k - 1].path) then [50.0 + k as real / |ss| as real * 50.0] else [])
  }

  /**
    The restore phase reports at most one value per setting, rising
    strictly within (50, 100]; when every setting is restored the last
    value is 100.
   */
  lemma {:induction false} RestoreSharesRise(ss: seq<Setting>, selected: Option<seq<Path>>, k: nat)
    requires k <= |ss|
    ensures var p := RestoreShares(ss, selected, k);
      && |p| <= k
      && (forall j | 0 <= j < |p| :: 50.0 < p[j] && (k > 0 ==> p[j] <= 50.0 + k as real / |ss| as real * 50.0 <= 100.0))
      && (forall i, j | 0 <= i < j < |p| :: p[i] < p[j])
      && (k > 0 && Selected(selected, ss[k - 1].path) ==> p[|p| - 1] == 50.0 + k as real / |ss| as real * 50.0)
  {
    if k > 0 {
      RestoreSharesRise(ss, selected, k - 1);
      var before := RestoreShares(ss, selected, k - 1);
      var x := 50.0 + k as real / |ss| as real * 50.0;
      Share(k, |ss|);
      if k > 1 {
        ShareOrder(k - 1, k, |ss|);
      }
      assert forall j | 0 <= j < |before| :: before[j] < x;
    }
  }

  /** An empty selection restores everything, exactly as no selection does. */
  lemma {:induction false} EmptySelectionIsAll(ex: FS, fs: FS, ss: seq<Setting>, k: nat)
    requires k <= |ss|
    ensures Restored(ex, fs, ss, Some([]), k) == Restored(ex, fs, ss, None, k)
    ensures RestoreShares(ss, Some([]), k) == RestoreShares(ss, None, k)
  {
    if k > 0 {
      EmptySelectionIsAll(ex, fs, ss, k - 1);
    }
  }

  /** A non-empty selection that names none of the settings restores nothing and reports nothing. */
  lemma {:induction false} DisjointSelectionIsNothing(ex: FS, fs: FS, ss: seq<Setting>, paths: seq<Path>, k: nat)
    requires k <= |ss| && paths != [] && forall j | 0 <= j < |ss| :: ss[j].path !in paths
    ensures Restored(ex, fs, ss, Some(paths), k) == fs
    ensures RestoreShares(ss, Some(paths), k) == []
  {
    if k > 0 {
      DisjointSelectionIsNothing(ex, fs, ss, paths, k - 1);
    }
  }

  /**
    Backup writes a directory setting's files under `<type>/<basename>`, but
    restore copies folder `<type>` onto the setting's path: a file at
    `path/rel` comes back at `path/<basename(path)>/rel`.
   */
  lemma RestoreNestsUnderBasename(fs: FS, s: Setting, q: Path, target: FS)
    requires !IsFile(fs, s.path) && q in FilesBelow(fs, s.path) && !IsFile(target, s.path)
    ensures var r := RestoreOne(Unpacked(Entries(fs, s)), target, s);
      var moved := s.path + [Basename(s.path)] + q[|s.path|..];
      moved in r && r[moved] == File(fs[q].data)
  {
    var a := Entries(fs, s);
    var d := Dst(s, q);
    EntryKeys(fs, s);
    EntryAt(fs, s, q);
    FolderIsDir(a, s.kind, d);
    RestoreFromFolder(Unpacked(a), target, s, d);
    MovedPath(s, q);
  }

  /** Restoring from a directory at `<type>` puts each entry below it at its relative place below the setting's path. */
  lemma RestoreFromFolder(ex: FS, target: FS, s: Setting, d: Path)
    requires IsDir(ex, [s.kind]) && d in ex && IsPrefix([s.kind], d) && !IsFile(target, s.path)
    ensures var r := RestoreOne(ex, target, s);
      s.path + d[|[s.kind]|..] in r && r[s.path + d[|[s.kind]|..]] == ex[d]
  {
    CopyTreeFromAt(ex, [s.kind], target, s.path, d);
  }

  /** Copying folder `<type>` onto the setting's path puts `<type>/<basename>/<rel>` at `path/<basename>/<rel>`. */
  lemma MovedPath(s: Setting, q: Path)
    requires IsPrefix(s.path, q)
    ensures s.path + Dst(s, q)[|[s.kind]|..] == s.path + [Basename(s.path)] + q[|s.path|..]
  {
    var rel := q[|s.path|..];
    var d := Dst(s, q);
    assert d == [s.kind] + ([Basename(s.path)] + rel);
    assert d[1..] == [Basename(s.path)] + rel;
  }

  /** Every entry a setting contributes lies in its folder. */
  lemma EntryKeys(fs: FS, s: Setting)
    ensures forall k | k in Entries(fs, s) :: |k| >= 2 && k[0] == s.kind
  {
    if !IsFile(fs, s.path) {
      forall k | k in Entries(fs, s) ensures |k| >= 2 && k[0] == s.kind {
        EntriesFromKey(fs, s, FilesBelow(fs, s.path), k);
        assert k[..2] == Prefix(s);
      }
    }
  }

  /** A file below a directory setting has its entry at `Dst`. */
  lemma EntryAt(fs: FS, s: Setting, q: Path)
    requires !IsFile(fs, s.path) && q in FilesBelow(fs, s.path)
    ensures Dst(s, q) in Entries(fs, s) && Entries(fs, s)[Dst(s, q)] == fs[q].data
  {
    EntriesFromAt(fs, s, FilesBelow(fs, s.path), q);
  }

  /** When every entry name has two components or more, the extracted tree has a directory at each first component. */
  lemma FolderIsDir(a: Archive, kind: Name, d: Path)
    requires d in a && |d| >= 2 && d[0] == kind
    requires forall k | k in a :: |k| >= 2
    ensures IsDir(Unpacked(a), [kind]) && IsPrefix([kind], d)
  {
    assert d[..1] == [kind];
    assert [kind] in Parents(a.Keys);
    assert [kind] !in a;
  }

  /**
    A file setting is backed up as `<type>/<basename>`, so restore meets a
    directory at `<type>`: while the file still exists `copytree` raises and
    nothing changes; once it is gone the file comes back inside a new
    directory at its own path.
   */
  lemma RestoreFileSetting(fs: FS, s: Setting, target: FS)
    requires IsFile(fs, s.path)
    ensures var r := RestoreOne(Unpacked(Entries(fs, s)), target, s);
      && (IsFile(target, s.path) ==> r == target)
      && (!IsFile(target, s.path) ==>
            var moved := s.path + [Basename(s.path)];
            moved in r && r[moved] == File(fs[s.path].data) && s.path in r && r[s.path] == Dir)
  {
    var d := Prefix(s);
    FileSettingUnpacked(fs, s);
    var ex := Unpacked(Entries(fs, s));
    if !IsFile(target, s.path) {
      CopyTreeFromAt(ex, [s.kind], target, s.path, d);
      CopyTreeFromAt(ex, [s.kind], target, s.path, [s.kind]);
      assert s.path + d[1..] == s.path + [Basename(s.path)];
      assert s.path + [s.kind][1..] == s.path;
    }
  }

  /** The unpacked backup of a file setting: a directory `<type>` holding the file at `<type>/<basename>`. */
  lemma FileSettingUnpacked(fs: FS, s: Setting)
    requires IsFile(fs, s.path)
    ensures var ex := Unpacked(Entries(fs, s));
      && IsDir(ex, [s.kind]) && !IsFile(ex, [s.kind]) && [s.kind] in ex && ex[[s.kind]] == Dir
      && Prefix(s) in ex && ex[Prefix(s)] == File(fs[s.path].data) && IsPrefix([s.kind], Prefix(s))
  {
    var a := Entries(fs, s);
    var d := Prefix(s);
    assert a == map[d := fs[s.path].data];
    assert d[0] == s.kind;
    FolderIsDir(a, s.kind, d);
  }

  // ---------------------------------------------------------------------
  // Listing
  // ---------------------------------------------------------------------

  /** One backup as `list_backups` reports it. */
  datatype Listing = Listing(id: nat, timestamp: string, size: nat, createdAt: nat, storagePath: Path, filename: string, settings: seq<Setting>)

  function ListingOf(v: BackupView): Listing {
    Listing(v.row.id, v.row.metadata.timestamp, v.row.size, v.row.createdAt, v.row.storagePath, v.row.filename, v.row.metadata.settings)
  }

  /** The `organized` dict after the listing `vs`: each application's backups appended in order. */
  function Grouped(vs: seq<BackupView>): map<string, seq<Listing>> {
    if vs == [] then map[]
    else
      var g := Grouped(vs[..|vs| - 1]);
      var v := vs[|vs| - 1];
      g[v.appName := (if v.appName in g then g[v.appName] else []) + [ListingOf(v)]]
  }

  /** One more backup of the listing appends it to its application's group. */
  lemma GroupedStep(vs: seq<BackupView>, i: nat)
    requires i < |vs|
    ensures var g := Grouped(vs[..i]);
      Grouped(vs[..i + 1]) == g[vs[i].appName := (if vs[i].appName in g then g[vs[i].appName] else []) + [ListingOf(vs[i])]]
  {
    assert vs[..i + 1][..i] == vs[..i];
  }

  /** The backups of application `a`, in listing order. */
  function GroupOf(vs: seq<BackupView>, a: string): (r: seq<Listing>)
    ensures |r| <= |vs|
    ensures forall l | l in r :: exists v | v in vs :: v.appName == a && l == ListingOf(v)
    ensures forall v | v in vs && v.appName == a :: ListingOf(v) in r
  {
    if vs == [] then []
    else
      var v := vs[|vs| - 1];
      var r := GroupOf(vs[..|vs| - 1], a) + (if v.appName == a then [ListingOf(v)] else []);
      assert forall w | w in vs[..|vs| - 1] :: w in vs;
      assert forall w | w in vs :: w in vs[..|vs| - 1] || w == v;
      r
  }

  /** Grouping is filtering: an application has a group exactly when it has a backup, and the group is its backups in order. */
  lemma {:induction false} GroupedIsFilter(vs: seq<BackupView>)
    ensures forall a :: (a in Grouped(vs) <==> GroupOf(vs, a) != []) && (a in Grouped(vs) ==> Grouped(vs)[a] == GroupOf(vs, a))
  {
    if vs != [] {
      GroupedIsFilter(vs[..|vs| - 1]);
    }
  }

  // ---------------------------------------------------------------------
  // Source defects
  // ---------------------------------------------------------------------

  /** How `create_backup` ends: a value returned, or an exception out of the call. */
  datatype Outcome = Returned(ok: bool) | Raised

  /**
    The `finally` clause (backup_manager.py:140-144) reads `backup_path`;
    when that name was never bound the read raises, replacing the pending
    outcome.
   */
  function Finally(bound: bool, pending: Outcome): Outcome {
    if bound then pending else Raised
  }

  /**
    As written, the early `return False` for no existing setting
    (backup_manager.py:33-35) runs before `backup_path` is bound (:52), so
    the call raises instead. `None` when the call goes past that check.
   */
  function NoSettingsAsWritten(fs: FS, settings: seq<Setting>): (o: Option<Outcome>)
    ensures o.Some? <==> forall s | s in settings :: !Exists(fs, s.path)
  {
    var valid := ValidSettings(fs, settings);
    assert valid != [] ==> valid[0] in valid;
    if valid == [] then Some(Finally(false, Returned(false))) else None
  }

  /** With no setting on disk the call as written raises; binding the path first gives the intended `False`. */
  lemma NoSettingsOutcome(fs: FS, settings: seq<Setting>)
    requires forall s | s in settings :: !Exists(fs, s.path)
    ensures NoSettingsAsWritten(fs, settings) == Some(Raised)
    ensures Finally(true, Returned(false)) == Returned(false)
  {
  }

  /** The number of settings whose path is a regular file. */
  function FileSettings(fs: FS, ss: seq<Setting>): nat {
    if ss == [] then 0 else FileSettings(fs, ss[..|ss| - 1]) + (if IsFile(fs, ss[|ss| - 1].path) then 1 else 0)
  }

  /** In a proper tree the count as written misses exactly one file per file setting. */
  lemma {:induction false} CountFileSettings(fs: FS, ss: seq<Setting>)
    requires Tree(fs)
    ensures TotalFiles(fs, ss) == TotalFilesAsWritten(fs, ss) + FileSettings(fs, ss)
  {
    if ss != [] {
      CountFileSettings(fs, ss[..|ss| - 1]);
      var p := ss[|ss| - 1].path;
      if IsFile(fs, p) {
        assert FilesBelow(fs, p) == {};
      }
    }
  }

  /**
    A file setting `a` followed by a directory `d` holding one file: the
    count as written is 1, so the second copy reports 2 / 1 * 50 = 100
    during the copy phase, above the 75 that follows it.
   */
  lemma OvershootAsWritten()
    ensures var fs: FS := map[["a"] := File([]), ["d"] := Dir, ["d", "x"] := File([])];
      var ss := [Setting("file", ["a"], "", None, None), Setting("dir", ["d"], "", None, None)];
      && TotalFilesAsWritten(fs, ss) == 1 && TotalFiles(fs, ss) == 2
      && Reported(TotalFiles(fs, ss), TotalFilesAsWritten(fs, ss))[1] == 100.0
  {
    var fs: FS := map[["a"] := File([]), ["d"] := Dir, ["d", "x"] := File([])];
    assert FilesBelow(fs, ["a"]) == {} by {
      forall q | q in fs ensures !Below(["a"], q) {
        if q == ["d", "x"] {
          assert q[..1] == ["d"] && "d"[0] != "a"[0];
        }
      }
    }
    assert FilesBelow(fs, ["d"]) == {["d", "x"]} by {
      assert Below(["d"], ["d", "x"]);
    }
  }
}
